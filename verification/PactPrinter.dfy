/** A printer for Pact expressions, and the proof that the grammar reads back what it prints. */
module PactPrinter {
  import opened Ints
  import opened Wrappers
  import opened PactSyntax
  import opened PactText
  import opened PactGrammar

  // ---------- Printing ----------

  function EscapeChar(c: char): string {
    match c
    case '\n' => "\\n"
    case '\t' => "\\t"
    case '\r' => "\\r"
    case '"' => "\\\""
    case '\\' => "\\\\"
    case _ => [c]
  }

  function Escape(str: string): string {
    if str == "" then "" else EscapeChar(str[0]) + Escape(str[1..])
  }

  function PrintString(str: string): string {
    "\"" + (Escape(str) + "\"")
  }

  function PrintLiteral(v: Value): string {
    match v
    case Integer(n) => PrintInt(n)
    case Boolean(b) => if b then "true" else "false"
    case Str(str) => PrintString(str)
    case _ => "()"
  }

  // A list of names, each followed by a space, and the closing parenthesis.
  function PrintNames(names: seq<string>): string {
    if names == [] then ")" else names[0] + (" " + PrintNames(names[1..]))
  }

  function PrintFields(fields: seq<(string, string)>): string {
    if fields == [] then ")"
    else fields[0].0 + (" : " + (fields[0].1 + (" " + PrintFields(fields[1..]))))
  }

  // Everything but constants, names and applications begins with a keyword.
  predicate IsForm(e: Expr) {
    !(e.Literal? || e.Symbol? || e.App? || e.Interface? || e.Property?)
  }

  function Keyword(e: Expr): string {
    match e
    case Let(_, _) => "let"
    case Lambda(_, _) => "lambda"
    case If(_, _, _) => "if"
    case WithCapability(_, _, _) => "with-capability"
    case RequireCapability(_, _) => "require-capability"
    case Enforce(_, _) => "enforce"
    case EnforceGuard(_) => "enforce-guard"
    case Read(_, _) => "read"
    case Write(kind, _, _, _) => WriteKeyword(kind)
    case Module(_) => "module"
    case Defun(_, _, _, _) => "defun"
    case Defcap(_, _, _) => "defcap"
    case Defschema(_, _) => "defschema"
    case Deftable(_, _) => "deftable"
    case _ => ""
  }

  function Print(e: Expr): string
    decreases e, 2
  {
    match e
    case Literal(v) => PrintLiteral(v)
    case Symbol(name) => name
    case App(func, args) => "(" + (Print(func) + PrintTail(args))
    case _ => ("(" + Keyword(e)) + (" " + Rest(e))
  }

  // What follows the keyword.
  function Rest(e: Expr): string
    decreases e, 1
  {
    match e
    case Let(bindings, body) => "(" + (PrintBindings(bindings) + PrintLast(body))
    case Lambda(params, body) => "(" + (PrintNames(params) + PrintLast(body))
    case If(cond, thn, els) =>
      Print(cond) + (" " + (Print(thn) + PrintElse(els)))
    case WithCapability(cap, args, body) => "(" + (cap + (PrintTail(args) + PrintLast(body)))
    case RequireCapability(cap, args) => "(" + (cap + (PrintTail(args) + ")"))
    case Enforce(cond, msg) => Print(cond) + (" " + (PrintString(msg) + ")"))
    case EnforceGuard(guard) => Print(guard) + ")"
    case Read(table, key) => table + PrintLast(key)
    case Write(_, table, key, row) => table + (" " + (Print(key) + PrintLast(row)))
    case Module(m) => m.name + (" '" + (m.governance.name + PrintTail(m.definitions)))
    case Defun(name, params, body, doc) =>
      name + (" " + (PrintDoc(doc) + ("(" + (PrintNames(params) + PrintLast(body)))))
    case Defcap(name, params, body) => name + (" " + ("(" + (PrintNames(params) + PrintLast(body))))
    case Defschema(name, fields) => name + (" " + PrintFields(fields))
    case Deftable(name, schema) => name + (" : {" + (schema + " })"))
    case _ => ""
  }

  function WriteKeyword(kind: WriteKind): string {
    match kind
    case Overwrite => "write"
    case InsertRow => "insert"
    case UpdateRow => "update"
  }

  function PrintDoc(doc: Option<string>): string {
    match doc
    case None => ""
    case Some(text) => PrintString(text) + " "
  }

  // Expressions, each after a space, and the closing parenthesis.
  function PrintTail(es: seq<Expr>): string
    decreases es, 0
  {
    if es == [] then ")" else " " + (Print(es[0]) + PrintTail(es[1..]))
  }

  function PrintLast(e: Expr): string
    decreases e, 3
  {
    " " + (Print(e) + ")")
  }

  // A missing else branch is the unit value.
  function PrintElse(e: Expr): string
    decreases e, 4
  {
    if e == Literal(Unit) then ")" else PrintLast(e)
  }

  function PrintBindings(bs: seq<Binding>): string
    decreases bs, 0
  {
    if bs == [] then ")" else "(" + (bs[0].name + (PrintLast(bs[0].val) + PrintBindings(bs[1..])))
  }

  // A text: expressions separated by line ends.
  function PrintAll(es: seq<Expr>): string {
    if es == [] then "" else Print(es[0]) + ("\n" + PrintAll(es[1..]))
  }

  // ---------- What can be printed ----------

  predicate Ascii(t: string) {
    forall i :: 0 <= i < |t| ==> t[i] < 128 as char
  }

  predicate GoodName(n: string) {
    n != "" && Ascii(n) && forall i :: 0 <= i < |n| ==> IsNameChar(n[i])
  }

  // A name that is not read as a number, a quotation or a truth value.
  predicate GoodSymbol(n: string) {
    GoodName(n) && n[0] != '\'' && n[0] != '-' && !IsDigit(n[0]) && n != "true" && n != "false"
  }

  // Parameter names; one that began with a colon would be read as the type of the one before it.
  predicate GoodParams(names: seq<string>) {
    forall i :: 0 <= i < |names| ==> GoodName(names[i]) && names[i][0] != ':'
  }

  predicate Printable(e: Expr)
    decreases e, 1
  {
    match e
    case Literal(v) => v.Integer? || v.Boolean? || (v.Str? && Ascii(v.s)) || v == List([])
    case Symbol(name) => GoodSymbol(name)
    case App(func, args) =>
      Printable(func) && !(func.Symbol? && func.symbol in KEYWORDS) && AllPrintable(args)
    case Let(bindings, body) => BindingsPrintable(bindings) && Printable(body)
    case Lambda(params, body) => (forall i :: 0 <= i < |params| ==> GoodName(params[i])) && Printable(body)
    case If(cond, thn, els) => Printable(cond) && Printable(thn) && (els == Literal(Unit) || Printable(els))
    case WithCapability(cap, args, body) => GoodName(cap) && AllPrintable(args) && Printable(body)
    case RequireCapability(cap, args) => GoodName(cap) && AllPrintable(args)
    case Enforce(cond, msg) => Printable(cond) && Ascii(msg)
    case EnforceGuard(guard) => Printable(guard)
    case Read(table, key) => GoodName(table) && Printable(key)
    case Write(_, table, key, row) => GoodName(table) && Printable(key) && Printable(row)
    case Module(m) =>
      GoodName(m.name) && m.governance.ByKeyset? && GoodName(m.governance.name) && AllPrintable(m.definitions)
    case Defun(name, params, body, doc) =>
      GoodName(name) && GoodParams(params) && Printable(body) && (doc.Some? ==> Ascii(doc.value))
    case Defcap(name, params, body) =>
      GoodName(name) && GoodParams(params) && Printable(body) && !ReadsAsNote(body)
    case Defschema(name, fields) =>
      GoodName(name) && forall i :: 0 <= i < |fields| ==> GoodName(fields[i].0) && GoodName(fields[i].1)
    case Deftable(name, schema) => GoodName(name) && GoodName(schema)
    case Interface(_, _) => false
    case Property(_, _) => false
  }

  // A capability body that is a string or begins with @ is read over as an annotation.
  predicate ReadsAsNote(body: Expr) {
    (body.Literal? && body.value.Str?) || (body.Symbol? && body.symbol != "" && body.symbol[0] == '@')
  }

  predicate AllPrintable(es: seq<Expr>)
    decreases es, 0
  {
    forall i :: 0 <= i < |es| ==> Printable(es[i])
  }

  predicate BindingsPrintable(bs: seq<Binding>)
    decreases bs, 0
  {
    forall i :: 0 <= i < |bs| ==> GoodName(bs[i].name) && Printable(bs[i].val)
  }

  // ---------- Texts at positions ----------

  predicate At(s: string, p: nat, t: string) {
    p + |t| <= |s| && s[p..p + |t|] == t
  }

  // No word or number goes on at p.
  predicate Delimited(s: string, p: nat) {
    p >= |s| || !IsNameChar(s[p])
  }

  lemma AtSplit(s: string, p: nat, a: string, b: string)
    requires At(s, p, a + b)
    ensures p + |a| + |b| <= |s| && At(s, p, a) && At(s, p + |a|, b)
    ensures a != "" ==> s[p] == a[0]
    ensures b != "" ==> s[p + |a|] == b[0]
  {
    var t := s[p..p + |a + b|];
    assert t[..|a|] == a && t[|a|..] == b;
    assert t[..|a|] == s[p..p + |a|] && t[|a|..] == s[p + |a|..p + |a| + |b|];
    if a != "" { assert t[0] == a[0]; }
    if b != "" { assert t[|a|] == b[0]; }
  }

  lemma AtChar(s: string, p: nat, t: string, i: nat)
    requires At(s, p, t) && i < |t|
    ensures p + i < |s| && s[p + i] == t[i]
  {
    assert s[p..p + |t|][i] == t[i];
  }

  lemma AtFirst(s: string, p: nat, t: string)
    requires At(s, p, t) && t != ""
    ensures p < |s| && s[p] == t[0]
  {
    assert s[p..p + |t|][0] == t[0];
  }

  // ---------- Words ----------

  lemma {:induction false} NameEndsThere(n: string, s: string, p: nat)
    requires At(s, p, n) && Delimited(s, p + |n|) && forall i :: 0 <= i < |n| ==> IsNameChar(n[i])
    ensures NameEnd(s, p) == p + |n|
    decreases |n|
  {
    if n != "" {
      assert n == [n[0]] + n[1..];
      AtSplit(s, p, [n[0]], n[1..]);
      NameEndsThere(n[1..], s, p + 1);
    }
  }

  lemma ReadName(n: string, s: string, p: nat)
    requires GoodName(n) && At(s, p, n) && Delimited(s, p + |n|)
    ensures p < |s| && s[p] == n[0] && Skip(s, p) == p
    ensures Name(s, p) == Got(n, p + |n|)
  {
    AtFirst(s, p, n);
    NameEndsThere(n, s, p);
  }

  // A name and what ends it.
  lemma WordBefore(n: string, rest: string, s: string, p: nat)
    requires GoodName(n) && At(s, p, n + rest) && rest != "" && !IsNameChar(rest[0])
    ensures p < |s| && s[p] == n[0] && Skip(s, p) == p
    ensures Name(s, p) == Got(n, p + |n|) && At(s, p + |n|, rest) && p + |n| < |s| && s[p + |n|] == rest[0]
  {
    hide Name, Skip, At, GoodName;
    AtSplit(s, p, n, rest);
    ReadName(n, s, p);
  }

  // A name behind one space.
  lemma ReadSpaceName(n: string, s: string, p: nat)
    requires GoodName(n) && p < |s| && s[p] == ' ' && At(s, p + 1, n) && Delimited(s, p + 1 + |n|)
    ensures Name(s, Skip(s, p)) == Got(n, p + 1 + |n|)
  {
    ReadName(n, s, p + 1);
  }

  // ---------- Strings ----------

  // One character of a string, escaped or not.
  lemma ReadChar(c: char, rest: string, s: string, p: nat)
    requires At(s, p, EscapeChar(c) + rest)
    ensures var q := p + |EscapeChar(c)|;
            && At(s, q, rest)
            && (StringRest(s, q, false).Got? ==>
                  StringRest(s, p, false) == Got([c] + StringRest(s, q, false).value, StringRest(s, q, false).pos))
  {
    hide At;
    var head := EscapeChar(c);
    AtSplit(s, p, head, rest);
    if |head| == 2 {
      AtChar(s, p, head, 1);
      assert StringRest(s, p, false) == StringRest(s, p + 1, true);
    }
  }

  lemma {:induction false} ReadStringRest(str: string, s: string, p: nat)
    requires At(s, p, Escape(str) + "\"")
    ensures StringRest(s, p, false) == Got(str, p + |Escape(str)| + 1)
    decreases |str|
  {
    hide EscapeChar, At;
    if str == "" {
      assert Escape(str) + "\"" == "\"";
      AtFirst(s, p, "\"");
    } else {
      var head, rest := EscapeChar(str[0]), Escape(str[1..]);
      assert Escape(str) + "\"" == head + (rest + "\"");
      ReadChar(str[0], rest + "\"", s, p);
      ReadStringRest(str[1..], s, p + |head|);
      assert str == [str[0]] + str[1..];
    }
  }

  lemma ReadString(str: string, s: string, p: nat)
    requires At(s, p, PrintString(str))
    ensures p < |s| && s[p] == '"' && StringAt(s, p) == Got(str, p + |PrintString(str)|)
  {
    AtSplit(s, p, "\"", Escape(str) + "\"");
    ReadStringRest(str, s, p + 1);
  }

  // ---------- Numbers ----------

  lemma {:induction false} DigitsEndThere(d: string, s: string, p: nat)
    requires At(s, p, d) && Delimited(s, p + |d|) && forall i :: 0 <= i < |d| ==> IsDigit(d[i])
    ensures DigitsEnd(s, p, false) == p + |d|
    decreases |d|
  {
    if d != "" {
      assert d == [d[0]] + d[1..];
      AtSplit(s, p, [d[0]], d[1..]);
      DigitsEndThere(d[1..], s, p + 1);
    }
  }

  lemma {:induction false} NoDot(t: string, p: nat)
    requires p <= |t| && forall i :: p <= i < |t| ==> t[i] != '.'
    ensures Find(t, p, '.') == |t|
    decreases |t| - p
  {
    if p < |t| {
      NoDot(t, p + 1);
    }
  }

  lemma ParsePrinted(n: i128)
    ensures ParseNumber(PrintInt(n)) == Some(Integer(n))
  {
    hide PrintNat, Find, ParseI128;
    NoDot(PrintInt(n), 0);
    ParseDecimal(n);
  }

  lemma ReadInt(n: i128, s: string, p: nat)
    requires At(s, p, PrintInt(n)) && Delimited(s, p + |PrintInt(n)|)
    ensures p < |s| && (s[p] == '-' || IsDigit(s[p])) && NumberAt(s, p) == Got(Literal(Integer(n)), p + |PrintInt(n)|)
  {
    hide PrintNat, DigitsEnd, ParseNumber;
    var t := PrintInt(n);
    AtFirst(s, p, t);
    ParsePrinted(n);
    if n < 0 {
      AtSplit(s, p, "-", PrintNat(Abs(n)));
      DigitsEndThere(PrintNat(Abs(n)), s, p + 1);
    } else {
      DigitsEndThere(t, s, p);
    }
  }

  // ---------- Name lists and fields ----------

  // Passing one space.
  lemma SkipSpace(s: string, p: nat)
    requires p < |s| && s[p] == ' '
    ensures Skip(s, p) == Skip(s, p + 1)
  {
  }

  lemma ParamsCons(n: string, s: string, p: nat, typed: bool)
    requires p < |s| && Name(s, p) == Got(n, p + |n|) && Skip(s, p) == p && s[p] != ')' && p + |n| < |s| &&
             s[p + |n|] == ' '
    requires var q := p + |n| + 1; Skip(s, q) == q && (typed ==> Cur(s, q) != ':')
    ensures Params(s, p, typed) ==
            match Params(s, p + |n| + 1, typed)
            case Got(rest, e) => Got([n] + rest, e)
            case Fail(e) => Fail(e)
            case Panic => Panic
  {
    hide Skip, Name;
    var q0 := p + |n|;
    SkipSpace(s, q0);
    assert TypeNote(s, q0 + 1) == Got((), q0 + 1) || !typed;
    assert Params(s, q0, typed) == Params(s, q0 + 1, typed);
  }

  lemma StartsName(n: string)
    requires GoodName(n)
    ensures n != "" && IsNameChar(n[0])
  {
  }

  // What ends a list of names is a name or the closing parenthesis, so nothing is skipped before it.
  lemma NamesStart(names: seq<string>, s: string, p: nat, typed: bool)
    requires At(s, p, PrintNames(names)) && NamesGood(names, typed)
    ensures p < |s| && Skip(s, p) == p && (typed ==> s[p] != ':')
  {
    hide Skip;
    if names == [] {
      AtFirst(s, p, ")");
    } else {
      AtSplit(s, p, names[0], " " + PrintNames(names[1..]));
    }
    SkipStops(s, p);
  }

  predicate NamesGood(names: seq<string>, typed: bool) {
    if typed then GoodParams(names) else forall i :: 0 <= i < |names| ==> GoodName(names[i])
  }

  lemma {:induction false} ReadNames(names: seq<string>, s: string, p: nat, typed: bool)
    requires At(s, p, PrintNames(names)) && NamesGood(names, typed)
    ensures Params(s, p, typed) == Got(names, p + |PrintNames(names)|)
    decreases |names|
  {
    hide Skip, Name, TypeNote, At, GoodName;
    NamesStart(names, s, p, typed);
    if names != [] {
      hide Params;
      var n, rest := names[0], PrintNames(names[1..]);
      WordBefore(n, " " + rest, s, p);
      AtSplit(s, p + |n|, " ", rest);
      StartsName(n);
      NamesStart(names[1..], s, p + |n| + 1, typed);
      ReadNames(names[1..], s, p + |n| + 1, typed);
      ParamsCons(n, s, p, typed);
      assert names == [n] + names[1..];
    } else {
      AtFirst(s, p, ")");
    }
  }

  // A field, its type and the space behind it.
  lemma SplitField(f: string, t: string, rest: string, s: string, p: nat)
    requires GoodName(f) && GoodName(t) && At(s, p, f + (" : " + (t + (" " + rest))))
    ensures var q := p + |f| + 3 + |t|;
            q + 1 <= |s| && s[q] == ' ' && At(s, q + 1, rest) && p < |s| && s[p] == f[0] && Skip(s, p) == p
            && Name(s, p) == Got(f, p + |f|) && Expect(s, Skip(s, p + |f|), ':') == Got((), p + |f| + 2)
            && Name(s, Skip(s, p + |f| + 2)) == Got(t, q)
  {
    hide Skip, Name, At, GoodName;
    var p1 := p + |f|;
    AtSplit(s, p, f, " : " + (t + (" " + rest)));
    AtSplit(s, p1, " : ", t + (" " + rest));
    ReadName(f, s, p);
    AtChar(s, p1, " : ", 1);
    AtChar(s, p1, " : ", 2);
    SkipSpace(s, p1);
    SkipStops(s, p1 + 1);
    WordAndSpace(t, rest, s, p1 + 2);
  }

  lemma SkipStops(s: string, p: nat)
    requires p < |s| && !IsSpace(s[p]) && s[p] != ';'
    ensures Skip(s, p) == p
  {
  }

  lemma {:induction false} ReadFields(fields: seq<(string, string)>, s: string, p: nat)
    requires At(s, p, PrintFields(fields))
    requires forall i :: 0 <= i < |fields| ==> GoodName(fields[i].0) && GoodName(fields[i].1)
    ensures p < |s| && Skip(s, p) == p && s[p] != '"'
    ensures Fields(s, p) == Got(fields, p + |PrintFields(fields)|)
    decreases |fields|
  {
    hide Skip, Name, At;
    if fields == [] {
      ReadClose(s, p);
    } else {
      var f, t, rest := fields[0].0, fields[0].1, PrintFields(fields[1..]);
      var q := p + |f| + 3 + |t|;
      SplitField(f, t, rest, s, p);
      ReadFields(fields[1..], s, q + 1);
      SkipSpace(s, q);
      assert Fields(s, q) == Fields(s, q + 1);
      assert fields == [(f, t)] + fields[1..];
    }
  }

  // ---------- Expressions ----------

  // An expression starts with a character that is neither skipped nor the end of a list.
  lemma PrintStart(e: Expr)
    requires Printable(e)
    ensures Print(e) != ""
    ensures var c := Print(e)[0]; !IsSpace(c) && c != ';' && c != ')' && (!ReadsAsNote(e) ==> c != '"' && c != '@')
  {
    hide PrintNames, PrintFields, PrintTail, PrintLast, PrintBindings, AllPrintable, BindingsPrintable, PrintNat,
      Escape;
    if e.Literal? && e.value.Integer? && e.value.n >= 0 {
      assert IsDigit(Print(e)[0]);
    }
  }

  lemma SpaceBefore(e: Expr, s: string, p: nat)
    requires Printable(e) && p < |s| && s[p] == ' ' && At(s, p + 1, Print(e))
    ensures p + 1 < |s| && s[p + 1] == Print(e)[0] && Skip(s, p) == p + 1 == Skip(s, p + 1)
    ensures ExprAt(s, p) == ExprAt(s, p + 1) && LastExpr(s, p) == LastExpr(s, p + 1)
  {
    hide Print, Printable, ListAt, StringAt, NumberAt, SymbolAt, Skip;
    PrintStart(e);
    AtFirst(s, p + 1, Print(e));
    SkipStops(s, p + 1);
    SkipSpace(s, p);
  }

  lemma ReadSpaced(e: Expr, s: string, p: nat)
    requires Printable(e) && p < |s| && s[p] == ' ' && At(s, p + 1, Print(e)) && Delimited(s, p + 1 + |Print(e)|)
    ensures Skip(s, p) == p + 1 < |s| && s[p + 1] == Print(e)[0]
    ensures ExprAt(s, p) == Got(e, p + 1 + |Print(e)|)
    decreases e, 7
  {
    hide Print, Printable, ExprAt, Skip;
    SpaceBefore(e, s, p);
    ReadExpr(e, s, p + 1);
  }

  lemma ReadLast(e: Expr, s: string, p: nat)
    requires Printable(e) && At(s, p, PrintLast(e))
    ensures p + 1 < |s| && s[p] == ' ' && s[p + 1] == Print(e)[0] && Skip(s, p) == p + 1 == Skip(s, p + 1)
    ensures LastExpr(s, p) == LastExpr(s, p + 1) == Got(e, p + |PrintLast(e)|)
    decreases e, 8
  {
    hide Print, Printable, ExprAt, Skip;
    AtSplit(s, p, " ", Print(e) + ")");
    AtSplit(s, p + 1, Print(e), ")");
    var q := p + 1 + |Print(e)|;
    AtFirst(s, q, ")");
    SkipStops(s, q);
    SpaceBefore(e, s, p);
    ReadSpaced(e, s, p);
  }

  lemma TailStart(es: seq<Expr>, rest: string)
    ensures PrintTail(es) + rest != "" && !IsNameChar((PrintTail(es) + rest)[0])
  {
    hide Print;
  }

  lemma LastStart(e: Expr, rest: string)
    ensures PrintLast(e) + rest != "" && !IsNameChar((PrintLast(e) + rest)[0])
  {
    hide Print;
  }

  lemma {:induction false} ReadTail(es: seq<Expr>, s: string, p: nat)
    requires AllPrintable(es) && At(s, p, PrintTail(es))
    ensures Delimited(s, p)
    ensures Exprs(s, p) == Got(es, p + |PrintTail(es)|)
    decreases es, 0
  {
    hide Print, Printable, ExprAt, Skip, Exprs, At;
    if es == [] {
      AtFirst(s, p, ")");
      SkipStops(s, p);
      ExprsEnd(s, p);
    } else {
      var e, rest := es[0], PrintTail(es[1..]);
      AtSplit(s, p, " ", Print(e) + rest);
      AtSplit(s, p + 1, Print(e), rest);
      var q := p + 1 + |Print(e)|;
      ReadTail(es[1..], s, q);
      PrintStart(e);
      SpaceBefore(e, s, p);
      ReadSpaced(e, s, p);
      ExprsCons(s, p, e, q);
      assert es == [e] + es[1..];
    }
  }

  lemma ExprsEnd(s: string, p: nat)
    requires p < |s| && s[p] == ')' && Skip(s, p) == p
    ensures Exprs(s, p) == Got([], p + 1)
  {
    hide Skip;
  }

  lemma ExprsCons(s: string, p: nat, e: Expr, q: nat)
    requires p <= |s| && Skip(s, p) < |s| && s[Skip(s, p)] != ')' && q <= |s| && ExprAt(s, Skip(s, p)) == Got(e, q)
    ensures Exprs(s, q).Got? ==> Exprs(s, p) == Got([e] + Exprs(s, q).value, Exprs(s, q).pos)
  {
    hide Skip, ExprAt;
  }

  lemma BindingsEnd(s: string, p: nat)
    requires p < |s| && s[p] == ')' && Skip(s, p) == p
    ensures Bindings(s, p) == Got([], p + 1)
  {
    hide Skip;
  }

  lemma BindingsCons(b: Binding, s: string, p: nat, q: nat)
    requires p < |s| && s[p] == '(' && Name(s, p + 1).Got? && Name(s, p + 1).value == b.name
    requires LastExpr(s, Name(s, p + 1).pos) == Got(b.val, q) && Bindings(s, q).Got?
    ensures Skip(s, p) == p && Bindings(s, p) == Got([b] + Bindings(s, q).value, Bindings(s, q).pos)
  {
    hide Name, LastExpr, Skip;
    SkipStops(s, p);
  }

  lemma {:induction false} ReadBindings(bs: seq<Binding>, s: string, p: nat)
    requires BindingsPrintable(bs) && At(s, p, PrintBindings(bs))
    ensures p < |s| && Skip(s, p) == p
    ensures Bindings(s, p) == Got(bs, p + |PrintBindings(bs)|)
    decreases bs, 0
  {
    hide Print, Printable, PrintLast, LastExpr, Skip, Name, GoodName, At, Bindings;
    if bs == [] {
      AtFirst(s, p, ")");
      SkipStops(s, p);
      BindingsEnd(s, p);
    } else {
      var b, rest := bs[0], PrintBindings(bs[1..]);
      AtSplit(s, p, "(", b.name + (PrintLast(b.val) + rest));
      SkipStops(s, p);
      LastStart(b.val, rest);
      WordBefore(b.name, PrintLast(b.val) + rest, s, p + 1);
      AtSplit(s, p + 1 + |b.name|, PrintLast(b.val), rest);
      var q := p + 1 + |b.name| + |PrintLast(b.val)|;
      ReadLast(b.val, s, p + 1 + |b.name|);
      ReadBindings(bs[1..], s, q);
      BindingsCons(b, s, p, q);
      assert bs == [b] + bs[1..];
    }
  }

  // What a parenthesis opens is decided by the expression behind it.
  lemma OpenList(s: string, p: nat, first: Expr, q: nat)
    requires p + 1 < |s| && s[p] == '(' && Skip(s, p + 1) == p + 1 && s[p + 1] != ')'
    requires ExprAt(s, p + 1) == Got(first, q)
    ensures q <= |s| && Skip(s, p) == p && ExprAt(s, p) == ListAt(s, p)
    ensures if first.Symbol? && first.symbol in KEYWORDS then ListAt(s, p) == SpecialAt(first.symbol, s, q)
            else Exprs(s, q).Got? ==> ListAt(s, p) == Got(App(first, Exprs(s, q).value), Exprs(s, q).pos)
  {
    hide SpecialAt, Exprs, Skip, StringAt, NumberAt, SymbolAt;
    SkipStops(s, p);
    assert ExprAt(s, p) == ListAt(s, p);
    hide ExprAt;
  }

  lemma ReadSymbol(name: string, s: string, p: nat)
    requires GoodSymbol(name) && At(s, p, name) && Delimited(s, p + |name|)
    ensures Skip(s, p) == p < |s| && s[p] == name[0]
    ensures ExprAt(s, p) == Got(Symbol(name), p + |name|)
  {
    hide Skip, ListAt, StringAt, NumberAt, Name;
    ReadName(name, s, p);
  }

  // A parenthesis and a keyword lead to the form of that keyword.
  lemma ReadKeyword(kw: string, s: string, p: nat)
    requires GoodSymbol(kw) && kw in KEYWORDS && At(s, p, "(" + kw) && Delimited(s, p + 1 + |kw|)
    ensures ExprAt(s, p) == SpecialAt(kw, s, p + 1 + |kw|)
  {
    hide SpecialAt, Skip, ListAt, ExprAt, KEYWORDS, At, Delimited;
    AtSplit(s, p, "(", kw);
    ReadSymbol(kw, s, p + 1);
    OpenList(s, p, Symbol(kw), p + 1 + |kw|);
  }

  lemma ReadAtom(e: Expr, s: string, p: nat)
    requires Printable(e) && (e.Literal? || e.Symbol?) && At(s, p, Print(e)) && Delimited(s, p + |Print(e)|)
    ensures ExprAt(s, p) == Got(e, p + |Print(e)|)
  {
    hide StringAt, NumberAt, Name, Skip, PrintInt, PrintString, Exprs, SpecialAt;
    PrintStart(e);
    AtFirst(s, p, Print(e));
    SkipStops(s, p);
    if e.Symbol? {
      ReadName(e.symbol, s, p);
    } else if e.value.Integer? {
      ReadInt(e.value.n, s, p);
    } else if e.value.Boolean? {
      ReadName(PrintLiteral(e.value), s, p);
    } else if e.value.Str? {
      ReadString(e.value.s, s, p);
    } else {
      AtChar(s, p, "()", 1);
      SkipStops(s, p + 1);
    }
  }

  lemma ReadApp(e: Expr, s: string, p: nat)
    requires e.App? && Printable(e) && At(s, p, Print(e))
    ensures ExprAt(s, p) == Got(e, p + |Print(e)|)
    decreases e, 4
  {
    hide PrintTail, Exprs, Skip, ExprAt, ListAt, KEYWORDS, At, AllPrintable, BindingsPrintable, GoodParams;
    var func, args := e.func, e.args;
    var q := p + 1 + |Print(func)|;
    AtSplit(s, p, "(", Print(func) + PrintTail(args));
    AtSplit(s, p + 1, Print(func), PrintTail(args));
    PrintStart(func);
    SkipStops(s, p + 1);
    ReadTail(args, s, q);
    ReadExpr(func, s, p + 1);
    OpenList(s, p, func, q);
  }

  // The start of a form: its keyword, a space, and what follows.
  lemma ReadForm(kw: string, rest: string, s: string, p: nat)
    requires GoodSymbol(kw) && kw in KEYWORDS && At(s, p, ("(" + kw) + (" " + rest))
    ensures var q := p + 1 + |kw|; q < |s| && s[q] == ' ' && At(s, q + 1, rest) && ExprAt(s, p) == SpecialAt(kw, s, q)
  {
    hide SpecialAt, ExprAt, GoodSymbol, KEYWORDS, At, AllPrintable, BindingsPrintable, GoodParams;
    AtSplit(s, p, "(" + kw, " " + rest);
    AtSplit(s, p + 1 + |kw|, " ", rest);
    ReadKeyword(kw, s, p);
  }

  // A space and an opening parenthesis.
  lemma ReadOpen(rest: string, s: string, p: nat)
    requires p < |s| && s[p] == ' ' && At(s, p + 1, "(" + rest)
    ensures Expect(s, Skip(s, p), '(') == Got((), p + 2) && At(s, p + 2, rest)
  {
    AtSplit(s, p + 1, "(", rest);
    SkipStops(s, p + 1);
  }

  // A name or an expression between two spaces.
  lemma WordAndSpace(n: string, rest: string, s: string, p: nat)
    requires GoodName(n) && p < |s| && s[p] == ' ' && At(s, p + 1, n + (" " + rest))
    ensures var q := p + 1 + |n|;
            q < |s| && s[q] == ' ' && At(s, q + 1, rest) && Name(s, Skip(s, p)) == Got(n, q)
  {
    hide GoodName, Name, At, Skip;
    AtSplit(s, p + 1, n, " " + rest);
    AtSplit(s, p + 1 + |n|, " ", rest);
    ReadSpaceName(n, s, p);
  }

  lemma ExprAndSpace(e: Expr, rest: string, s: string, p: nat)
    requires Printable(e) && p < |s| && s[p] == ' ' && At(s, p + 1, Print(e) + (" " + rest))
    ensures var q := p + 1 + |Print(e)|;
            q < |s| && s[q] == ' ' && At(s, q + 1, rest) && ExprAt(s, p) == Got(e, q)
    decreases e, 8
  {
    hide Printable, Print, ExprAt, At, Skip;
    AtSplit(s, p + 1, Print(e), " " + rest);
    AtSplit(s, p + 1 + |Print(e)|, " ", rest);
    ReadSpaced(e, s, p);
  }

  // The closing parenthesis.
  lemma ReadClose(s: string, p: nat)
    requires At(s, p, ")")
    ensures p < |s| && s[p] == ')' && Skip(s, p) == p && Expect(s, p, ')') == Got((), p + 1)
  {
    AtFirst(s, p, ")");
    SkipStops(s, p);
  }

  // In the lemmas for the forms, p is the space behind the keyword.
  lemma ReadLet(e: Expr, s: string, p: nat)
    requires e.Let? && BindingsPrintable(e.bindings) && Printable(e.body)
    requires p < |s| && s[p] == ' ' && At(s, p + 1, "(" + (PrintBindings(e.bindings) + PrintLast(e.body)))
    ensures LetAt(s, p) == Got(e, p + 2 + |PrintBindings(e.bindings)| + |PrintLast(e.body)|)
    decreases e, 4
  {
    hide PrintBindings, PrintLast, Bindings, LastExpr, Skip, At, AllPrintable, BindingsPrintable, GoodParams, Printable;
    var bindings, last := PrintBindings(e.bindings), PrintLast(e.body);
    ReadOpen(bindings + last, s, p);
    AtSplit(s, p + 2, bindings, last);
    ReadBindings(e.bindings, s, p + 2);
    ReadLast(e.body, s, p + 2 + |bindings|);
  }

  lemma ReadLambda(e: Expr, s: string, p: nat)
    requires e.Lambda? && NamesGood(e.params, false) && Printable(e.body)
    requires p < |s| && s[p] == ' ' && At(s, p + 1, "(" + (PrintNames(e.params) + PrintLast(e.body)))
    ensures LambdaAt(s, p) == Got(e, p + 2 + |PrintNames(e.params)| + |PrintLast(e.body)|)
    decreases e, 4
  {
    hide PrintNames, PrintLast, Params, LastExpr, Skip, At, AllPrintable, BindingsPrintable, GoodParams, Printable;
    var names, last := PrintNames(e.params), PrintLast(e.body);
    ReadOpen(names + last, s, p);
    AtSplit(s, p + 2, names, last);
    ReadNames(e.params, s, p + 2, false);
    ReadLast(e.body, s, p + 2 + |names|);
  }

  lemma ReadIf(e: Expr, s: string, p: nat)
    requires e.If? && Printable(e.cond) && Printable(e.thn) && (e.els == Literal(Unit) || Printable(e.els))
    requires p < |s| && s[p] == ' ' && At(s, p + 1, Print(e.cond) + (" " + (Print(e.thn) + PrintElse(e.els))))
    ensures IfAt(s, p) == Got(e, p + 2 + |Print(e.cond)| + |Print(e.thn)| + |PrintElse(e.els)|)
    decreases e, 4
  {
    hide Print, LastExpr, ExprAt, Skip, At, AllPrintable, BindingsPrintable, GoodParams, Printable;
    var c, t, last := Print(e.cond), Print(e.thn), PrintElse(e.els);
    var q := p + 1 + |c|;
    var r := q + 1 + |t|;
    ExprAndSpace(e.cond, t + last, s, p);
    AtSplit(s, q + 1, t, last);
    ReadSpaced(e.thn, s, q);
    if e.els == Literal(Unit) {
      ReadClose(s, r);
    } else {
      ReadLast(e.els, s, r);
      PrintStart(e.els);
    }
  }

  lemma ReadWithCap(e: Expr, s: string, p: nat)
    requires e.WithCapability? && GoodName(e.cap) && AllPrintable(e.args) && Printable(e.body)
    requires p < |s| && s[p] == ' ' && At(s, p + 1, "(" + (e.cap + (PrintTail(e.args) + PrintLast(e.body))))
    ensures WithCapAt(s, p) == Got(e, p + 2 + |e.cap| + |PrintTail(e.args)| + |PrintLast(e.body)|)
    decreases e, 4
  {
    hide PrintTail, PrintLast, LastExpr, Exprs, Skip, Name, GoodName, At, AllPrintable, BindingsPrintable, GoodParams,
      Printable;
    var args, last := PrintTail(e.args), PrintLast(e.body);
    var q := p + 2 + |e.cap|;
    ReadOpen(e.cap + (args + last), s, p);
    TailStart(e.args, last);
    WordBefore(e.cap, args + last, s, p + 2);
    AtSplit(s, q, args, last);
    ReadTail(e.args, s, q);
    ReadLast(e.body, s, q + |args|);
  }

  lemma ReadRequire(e: Expr, s: string, p: nat)
    requires e.RequireCapability? && GoodName(e.cap) && AllPrintable(e.args)
    requires p < |s| && s[p] == ' ' && At(s, p + 1, "(" + (e.cap + (PrintTail(e.args) + ")")))
    ensures RequireAt(s, p) == Got(e, p + 3 + |e.cap| + |PrintTail(e.args)|)
    decreases e, 4
  {
    hide PrintTail, Exprs, Skip, Name, GoodName, At, AllPrintable, BindingsPrintable, GoodParams, Printable;
    var args := PrintTail(e.args);
    var q := p + 2 + |e.cap|;
    ReadOpen(e.cap + (args + ")"), s, p);
    TailStart(e.args, ")");
    WordBefore(e.cap, args + ")", s, p + 2);
    AtSplit(s, q, args, ")");
    ReadTail(e.args, s, q);
    ReadClose(s, q + |args|);
  }

  lemma ReadEnforce(e: Expr, s: string, p: nat)
    requires e.Enforce? && Printable(e.cond)
    requires p < |s| && s[p] == ' ' && At(s, p + 1, Print(e.cond) + (" " + (PrintString(e.msg) + ")")))
    ensures EnforceAt(s, p) == Got(e, p + 3 + |Print(e.cond)| + |PrintString(e.msg)|)
    decreases e, 4
  {
    hide Print, PrintString, StringAt, ExprAt, Skip, At, AllPrintable, BindingsPrintable, GoodParams, Printable;
    var c, m := Print(e.cond), PrintString(e.msg);
    var q := p + 1 + |c|;
    ExprAndSpace(e.cond, m + ")", s, p);
    AtSplit(s, q + 1, m, ")");
    ReadString(e.msg, s, q + 1);
    SkipSpace(s, q);
    SkipStops(s, q + 1);
    ReadClose(s, q + 1 + |m|);
  }

  lemma ReadRead(e: Expr, s: string, p: nat)
    requires e.Read? && GoodName(e.table) && Printable(e.key)
    requires p < |s| && s[p] == ' ' && At(s, p + 1, e.table + PrintLast(e.key))
    ensures Name(s, Skip(s, p)) == Got(e.table, p + 1 + |e.table|)
    ensures LastExpr(s, p + 1 + |e.table|) == Got(e.key, p + 1 + |e.table| + |PrintLast(e.key)|)
    decreases e, 4
  {
    hide PrintLast, LastExpr, Skip, Name, GoodName, At, AllPrintable, BindingsPrintable, GoodParams, Printable;
    var last := PrintLast(e.key);
    AtSplit(s, p + 1, e.table, last);
    ReadLast(e.key, s, p + 1 + |e.table|);
    ReadSpaceName(e.table, s, p);
  }

  lemma ReadWrite(e: Expr, s: string, p: nat)
    requires e.Write? && GoodName(e.table) && Printable(e.key) && Printable(e.row)
    requires p < |s| && s[p] == ' ' && At(s, p + 1, e.table + (" " + (Print(e.key) + PrintLast(e.row))))
    ensures WriteAt(e.kind, s, p) == Got(e, p + 2 + |e.table| + |Print(e.key)| + |PrintLast(e.row)|)
    decreases e, 4
  {
    hide Print, PrintLast, LastExpr, ExprAt, Skip, Name, GoodName, At, AllPrintable, BindingsPrintable, GoodParams,
      Printable;
    var k, last := Print(e.key), PrintLast(e.row);
    var q := p + 1 + |e.table|;
    WordAndSpace(e.table, k + last, s, p);
    AtSplit(s, q + 1, k, last);
    ReadLast(e.row, s, q + 1 + |k|);
    ReadSpaced(e.key, s, q);
  }

  lemma ReadModule(e: Expr, s: string, p: nat)
    requires e.Module? && GoodName(e.mod.name) && e.mod.governance.ByKeyset? && GoodName(e.mod.governance.name)
             && AllPrintable(e.mod.definitions)
    requires p < |s| && s[p] == ' ' &&
             At(s, p + 1, e.mod.name + (" '" + (e.mod.governance.name + PrintTail(e.mod.definitions))))
    ensures ModuleAt(s, p) == Got(e, p + 3 + |e.mod.name| + |e.mod.governance.name| + |PrintTail(e.mod.definitions)|)
    decreases e, 4
  {
    hide PrintTail, Exprs, ExprAt, Skip, Name, GoodName, At, AllPrintable, BindingsPrintable, GoodParams, Printable;
    var name, gov, defs := e.mod.name, e.mod.governance.name, PrintTail(e.mod.definitions);
    var q := p + 1 + |name|;
    SkipSpace(s, p);
    WordBefore(name, " '" + (gov + defs), s, p + 1);
    AtSplit(s, q, " '", gov + defs);
    AtChar(s, q, " '", 1);
    assert defs == defs + "";
    TailStart(e.mod.definitions, "");
    WordBefore(gov, defs, s, q + 2);
    ReadTail(e.mod.definitions, s, q + 2 + |gov|);
    SkipSpace(s, q);
    SkipStops(s, q + 1);
  }

  lemma ReadDefschema(e: Expr, s: string, p: nat)
    requires e.Defschema? && GoodName(e.sname)
             && forall i :: 0 <= i < |e.fields| ==> GoodName(e.fields[i].0) && GoodName(e.fields[i].1)
    requires p < |s| && s[p] == ' ' && At(s, p + 1, e.sname + (" " + PrintFields(e.fields)))
    ensures DefschemaAt(s, p) == Got(e, p + 2 + |e.sname| + |PrintFields(e.fields)|)
  {
    hide PrintFields, Fields, Skip, Name, StringAt, GoodName, At, AllPrintable, BindingsPrintable, GoodParams,
      Printable;
    var name, fields := e.sname, PrintFields(e.fields);
    var q := p + 1 + |name|;
    WordAndSpace(name, fields, s, p);
    ReadFields(e.fields, s, q + 1);
    SkipSpace(s, q);
  }

  lemma ReadDeftable(e: Expr, s: string, p: nat)
    requires e.Deftable? && GoodName(e.tname) && GoodName(e.schema)
    requires p < |s| && s[p] == ' ' && At(s, p + 1, e.tname + (" : {" + (e.schema + " })")))
    ensures DeftableAt(s, p) == Got(e, p + 8 + |e.tname| + |e.schema|)
  {
    hide Skip, Name, GoodName, At, AllPrintable, BindingsPrintable, GoodParams, Printable;
    var name, schema := e.tname, e.schema;
    var q := p + 1 + |name|;
    SkipSpace(s, p);
    WordBefore(name, " : {" + (schema + " })"), s, p + 1);
    AtSplit(s, q, " : {", schema + " })");
    WordBefore(schema, " })", s, q + 4);
    TableMarks(s, q, q + 4 + |schema|);
  }

  lemma TableMarks(s: string, q: nat, r: nat)
    requires At(s, q, " : {") && At(s, r, " })")
    ensures q + 4 <= |s| && r + 3 <= |s|
    ensures Expect(s, Skip(s, q), ':') == Got((), q + 2) && Expect(s, Skip(s, q + 2), '{') == Got((), q + 4)
    ensures Expect(s, Skip(s, r), '}') == Got((), r + 2) && Expect(s, Skip(s, r + 2), ')') == Got((), r + 3)
  {
    hide At, Skip;
    AtChar(s, q, " : {", 0);
    AtChar(s, q, " : {", 1);
    AtChar(s, q, " : {", 2);
    AtChar(s, q, " : {", 3);
    AtChar(s, r, " })", 0);
    AtChar(s, r, " })", 1);
    AtChar(s, r, " })", 2);
    SkipSpace(s, q);
    SkipStops(s, q + 1);
    SkipSpace(s, q + 2);
    SkipStops(s, q + 3);
    SkipSpace(s, r);
    SkipStops(s, r + 1);
    SkipStops(s, r + 2);
  }

  lemma ReadDefcap(e: Expr, s: string, p: nat)
    requires e.Defcap? && GoodName(e.cname) && NamesGood(e.params, true) && Printable(e.body) && !ReadsAsNote(e.body)
    requires p < |s| && s[p] == ' ' &&
             At(s, p + 1, e.cname + (" " + ("(" + (PrintNames(e.params) + PrintLast(e.body)))))
    ensures DefcapAt(s, p) == Got(e, p + 3 + |e.cname| + |PrintNames(e.params)| + |PrintLast(e.body)|)
    decreases e, 4
  {
    hide Print, PrintNames, PrintLast, Params, LastExpr, Skip, Name, GoodName, StringAt, At, AllPrintable,
      BindingsPrintable, GoodParams, Printable;
    var name, names, last := e.cname, PrintNames(e.params), PrintLast(e.body);
    var q := p + 1 + |name|;
    WordAndSpace(name, "(" + (names + last), s, p);
    ReadOpen(names + last, s, q);
    AtSplit(s, q + 2, names, last);
    ReadNames(e.params, s, q + 2, true);
    ReadLast(e.body, s, q + 2 + |names|);
    PrintStart(e.body);
  }

  lemma ReadDoc(doc: Option<string>, rest: string, s: string, p: nat)
    requires p < |s| && s[p] == ' ' && At(s, p + 1, PrintDoc(doc) + ("(" + rest))
    ensures var q := p + 1 + |PrintDoc(doc)|;
            At(s, q + 1, rest) && q < |s| && s[q] == '(' && DocAt(s, Skip(s, p)) == Got(doc, q)
  {
    hide Skip, StringAt, PrintString, At, DocAt;
    var q := p + 1 + |PrintDoc(doc)|;
    AtSplit(s, p + 1, PrintDoc(doc), "(" + rest);
    AtSplit(s, q, "(", rest);
    SkipSpace(s, p);
    SkipStops(s, q);
    if doc.Some? {
      ReadDocText(doc.value, s, p + 1);
    } else {
      NoDoc(s, q);
    }
  }

  lemma NoDoc(s: string, p: nat)
    requires p < |s| && s[p] == '('
    ensures DocAt(s, p) == Got(None, p)
  {
    hide StringAt, Skip;
  }

  lemma ReadDocText(text: string, s: string, p: nat)
    requires At(s, p, PrintString(text) + " ")
    ensures var q := p + |PrintString(text)|;
            p < q < |s| && Skip(s, p) == p && s[q] == ' ' && DocAt(s, p) == Got(Some(text), Skip(s, q + 1))
  {
    hide Skip, StringAt, PrintString, At;
    var q := p + |PrintString(text)|;
    AtSplit(s, p, PrintString(text), " ");
    AtFirst(s, q, " ");
    ReadString(text, s, p);
    SkipStops(s, p);
    SkipSpace(s, q);
  }

  lemma ReadDefun(e: Expr, s: string, p: nat)
    requires e.Defun? && GoodName(e.fname) && NamesGood(e.params, true) && Printable(e.body)
    requires p < |s| && s[p] == ' ' &&
             At(s, p + 1, e.fname + (" " + (PrintDoc(e.doc) + ("(" + (PrintNames(e.params) + PrintLast(e.body))))))
    ensures DefunAt(s, p) ==
            Got(e, p + 3 + |e.fname| + |PrintDoc(e.doc)| + |PrintNames(e.params)| + |PrintLast(e.body)|)
    decreases e, 4
  {
    hide PrintNames, PrintLast, PrintDoc, Params, LastExpr, Skip, Name, GoodName, DocAt, At, AllPrintable,
      BindingsPrintable, GoodParams, Printable;
    var name, doc, names, last := e.fname, PrintDoc(e.doc), PrintNames(e.params), PrintLast(e.body);
    var q := p + 1 + |name|;
    var r := q + 1 + |doc| + 1;
    WordAndSpace(name, doc + ("(" + (names + last)), s, p);
    ReadDoc(e.doc, names + last, s, q);
    AtSplit(s, r, names, last);
    ReadNames(e.params, s, r, true);
    ReadLast(e.body, s, r + |names|);
  }

  lemma KeywordsAreSymbols(e: Expr)
    requires IsForm(e)
    ensures GoodSymbol(Keyword(e))
  {
    hide KEYWORDS, GoodSymbol, Lower;
    KeywordIsLower(e);
    Lowercase(Keyword(e));
  }

  predicate Defines(e: Expr) {
    e.Module? || e.Defun? || e.Defcap? || e.Defschema? || e.Deftable?
  }

  lemma KeywordIsLower(e: Expr)
    requires IsForm(e)
    ensures Lower(Keyword(e)) && Keyword(e) != "true" && Keyword(e) != "false"
  {
    hide Lower, Keyword;
    if Defines(e) {
      DefinitionIsLower(e);
    } else if e.WithCapability? || e.RequireCapability? || e.Write? {
      EffectIsLower(e);
    } else {
      ControlIsLower(e);
    }
  }

  lemma DefinitionIsLower(e: Expr)
    requires Defines(e)
    ensures Lower(Keyword(e)) && Keyword(e) != "true" && Keyword(e) != "false"
  {
  }

  lemma EffectIsLower(e: Expr)
    requires e.WithCapability? || e.RequireCapability? || e.Write?
    ensures Lower(Keyword(e)) && Keyword(e) != "true" && Keyword(e) != "false"
  {
  }

  lemma ControlIsLower(e: Expr)
    requires IsForm(e) && !Defines(e) && !e.WithCapability? && !e.RequireCapability? && !e.Write?
    ensures Lower(Keyword(e)) && Keyword(e) != "true" && Keyword(e) != "false"
  {
  }

  // Words of lower-case letters and hyphens that start with a letter.
  predicate Lower(kw: string) {
    kw != "" && kw[0] != '-' && forall i :: 0 <= i < |kw| ==> 'a' <= kw[i] <= 'z' || kw[i] == '-'
  }

  lemma Lowercase(kw: string)
    requires Lower(kw) && kw != "true" && kw != "false"
    ensures GoodSymbol(kw)
  {
  }

  lemma KeywordsAreKnown(e: Expr)
    requires IsForm(e)
    ensures Keyword(e) in KEYWORDS
  {
  }

  lemma ReadSpecial(e: Expr, s: string, p: nat)
    requires IsForm(e) && Printable(e) && p < |s| && s[p] == ' ' && At(s, p + 1, Rest(e))
    requires Keyword(e) in KEYWORDS
    ensures SpecialAt(Keyword(e), s, p) == Got(e, p + 1 + |Rest(e)|)
    decreases e, 5, 1
  {
    hide SpecialAt, Keyword, Rest, KEYWORDS, Printable, At;
    if Defines(e) {
      ReadDefinition(e, s, p);
    } else if e.WithCapability? || e.RequireCapability? || e.Write? || e.Read? {
      ReadEffect(e, s, p);
    } else {
      ReadControl(e, s, p);
    }
  }

  lemma ReadDefinition(e: Expr, s: string, p: nat)
    requires IsForm(e) && Printable(e) && p < |s| && s[p] == ' ' && At(s, p + 1, Rest(e))
    requires Keyword(e) in KEYWORDS
    requires Defines(e)
    ensures SpecialAt(Keyword(e), s, p) == Got(e, p + 1 + |Rest(e)|)
    decreases e, 5, 0
  {
    hide Print, PrintTail, PrintLast, PrintElse, PrintBindings, PrintNames, PrintFields, PrintDoc, PrintString,
      KEYWORDS, At;
    hide Name, LastExpr, LetAt, LambdaAt, IfAt, WithCapAt, RequireAt, EnforceAt, WriteAt, ModuleAt, DefunAt, DefcapAt;
    hide DefschemaAt, DeftableAt, GoodName, AllPrintable, BindingsPrintable, GoodParams, ReadsAsNote;
    match e
    case Module(_) => ReadModule(e, s, p);
    case Defun(_, _, _, _) => ReadDefun(e, s, p);
    case Defcap(_, _, _) => ReadDefcap(e, s, p);
    case Defschema(_, _) => ReadDefschema(e, s, p);
    case Deftable(_, _) => ReadDeftable(e, s, p);
  }

  lemma ReadEffect(e: Expr, s: string, p: nat)
    requires IsForm(e) && Printable(e) && p < |s| && s[p] == ' ' && At(s, p + 1, Rest(e))
    requires Keyword(e) in KEYWORDS
    requires e.WithCapability? || e.RequireCapability? || e.Write? || e.Read?
    ensures SpecialAt(Keyword(e), s, p) == Got(e, p + 1 + |Rest(e)|)
    decreases e, 5, 0
  {
    hide Print, PrintTail, PrintLast, PrintElse, PrintBindings, PrintNames, PrintFields, PrintDoc, PrintString,
      KEYWORDS, At;
    hide Name, LastExpr, LetAt, LambdaAt, IfAt, WithCapAt, RequireAt, EnforceAt, WriteAt, ModuleAt, DefunAt, DefcapAt;
    hide DefschemaAt, DeftableAt, GoodName, AllPrintable, BindingsPrintable, GoodParams, ReadsAsNote;
    match e
    case WithCapability(_, _, _) => ReadWithCap(e, s, p);
    case RequireCapability(_, _) => ReadRequire(e, s, p);
    case Read(_, _) => ReadRead(e, s, p);
    case Write(_, _, _, _) => ReadWrite(e, s, p);
  }

  lemma ReadControl(e: Expr, s: string, p: nat)
    requires IsForm(e) && Printable(e) && p < |s| && s[p] == ' ' && At(s, p + 1, Rest(e))
    requires Keyword(e) in KEYWORDS
    requires e.Let? || e.Lambda? || e.If? || e.Enforce? || e.EnforceGuard?
    ensures SpecialAt(Keyword(e), s, p) == Got(e, p + 1 + |Rest(e)|)
    decreases e, 5, 0
  {
    hide Print, PrintTail, PrintLast, PrintElse, PrintBindings, PrintNames, PrintFields, PrintDoc, PrintString,
      KEYWORDS, At;
    hide Name, LastExpr, LetAt, LambdaAt, IfAt, WithCapAt, RequireAt, EnforceAt, WriteAt, ModuleAt, DefunAt, DefcapAt;
    hide DefschemaAt, DeftableAt, GoodName, AllPrintable, BindingsPrintable, GoodParams, ReadsAsNote;
    match e
    case Let(_, _) => ReadLet(e, s, p);
    case Lambda(_, _) => ReadLambda(e, s, p);
    case If(_, _, _) => ReadIf(e, s, p);
    case Enforce(_, _) => ReadEnforce(e, s, p);
    case EnforceGuard(guard) => ReadEnforceGuard(e, s, p);
  }

  lemma ReadEnforceGuard(e: Expr, s: string, p: nat)
    requires e.EnforceGuard? && Printable(e) && p < |s| && s[p] == ' ' && At(s, p + 1, Rest(e))
    ensures LastExpr(s, p) == Got(e.guard, p + 1 + |Rest(e)|)
    decreases e, 4
  {
    hide Print, LastExpr, Skip;
    assert s[p..p + 1 + |Rest(e)|] == [s[p]] + s[p + 1..p + 1 + |Rest(e)|];
    ReadLast(e.guard, s, p);
  }

  // Parsing what was printed gives the expression back and ends behind it.
  lemma ReadExpr(e: Expr, s: string, p: nat)
    requires Printable(e) && At(s, p, Print(e)) && Delimited(s, p + |Print(e)|)
    ensures ExprAt(s, p) == Got(e, p + |Print(e)|)
    decreases e, 6
  {
    hide ExprAt, At, GoodSymbol, KEYWORDS, Keyword, Rest, SpecialAt;
    if e.Literal? || e.Symbol? {
      ReadAtom(e, s, p);
    } else if e.App? {
      ReadApp(e, s, p);
    } else {
      KeywordsAreSymbols(e);
      KeywordsAreKnown(e);
      ReadForm(Keyword(e), Rest(e), s, p);
      ReadSpecial(e, s, p + 1 + |Keyword(e)|);
    }
  }

  // ---------- Texts ----------

  lemma {:induction false} ReadAll(es: seq<Expr>, s: string, p: nat)
    requires AllPrintable(es) && At(s, p, PrintAll(es)) && p + |PrintAll(es)| == |s|
    ensures AllExprs(s, p) == Got(es, |s|)
    decreases es
  {
    hide Print, Printable, ExprAt, Skip, At, SpecialAt;
    if es == [] {
    } else {
      var e, rest := es[0], PrintAll(es[1..]);
      AtSplit(s, p, Print(e), "\n" + rest);
      var q := p + |Print(e)|;
      AtSplit(s, q, "\n", rest);
      PrintStart(e);
      AtFirst(s, p, Print(e));
      SkipStops(s, p);
      ReadExpr(e, s, p);
      ReadAll(es[1..], s, q + 1);
      SkipLine(s, q);
      assert es == [e] + es[1..];
    }
  }

  lemma SkipLine(s: string, p: nat)
    requires p < |s| && s[p] == '\n'
    ensures AllExprs(s, p) == AllExprs(s, p + 1)
  {
    hide ExprAt;
    assert Skip(s, p) == Skip(s, p + 1);
  }

  // Parsing a printed list of expressions gives back exactly that list.
  lemma ParseAfterPrint(es: seq<Expr>)
    requires AllPrintable(es)
    ensures AllExprs(PrintAll(es), 0) == Got(es, |PrintAll(es)|)
  {
    ReadAll(es, PrintAll(es), 0);
  }
}
