/** What the recursive-descent parser of `pact.rs` computes: for a source text and a position, the
    expression that starts there and the position behind it. The text is ASCII, so that byte positions
    are character positions. */
module PactGrammar {
  import opened Ints
  import opened Wrappers
  import opened PactSyntax
  import opened PactText

  datatype ParseError =
    | UnexpectedEnd | ExpectedChar(expected: char, got: char) | ExpectedSymbol | Unterminated | InvalidNumber

  /** Something parsed and where it ends, an error, or a Rust panic (a slice past the end of the text). */
  datatype Parsed<+T> = Got(value: T, pos: nat) | Fail(error: ParseError) | Panic {
    predicate IsFailure() {
      !Got?
    }

    function PropagateFailure<U>(): Parsed<U>
      requires !Got?
    {
      if Fail? then Fail(error) else Panic
    }

    function Extract(): (T, nat)
      requires Got?
    {
      (value, pos)
    }
  }

  // Some annotation sign has no closing parenthesis behind it.
  predicate OpenNote(s: string) {
    exists p :: 0 <= p < |s| && s[p] == '@' && NoneFrom(s, p, ')')
  }

  predicate NoneFrom(s: string, p: nat, c: char) {
    forall i :: p <= i < |s| ==> s[i] != c
  }

  // The position behind what was parsed lies within the text and not before the start, and only a text with an
  // open annotation makes the parser panic.
  predicate Within<T>(s: string, p: nat, r: Parsed<T>) {
    && (r.Got? ==> p <= r.pos <= |s|)
    && (r.Panic? ==> OpenNote(s))
  }

  predicate Advances<T>(s: string, p: nat, r: Parsed<T>) {
    && (r.Got? ==> p < r.pos <= |s|)
    && (r.Panic? ==> OpenNote(s))
  }

  // ---------- Characters and words ----------

  predicate IsSpace(c: char) {
    c == ' ' || '\t' <= c <= '\r'
  }

  predicate IsNameChar(c: char) {
    !IsSpace(c) && c != '(' && c != ')' && c != '"' && c != ';'
  }

  function Cur(s: string, p: nat): char {
    if p < |s| then s[p] else '\0'
  }

  // The first position from p on that holds c, or the end.
  function Find(s: string, p: nat, c: char): (q: nat)
    requires p <= |s|
    ensures p <= q <= |s|
    ensures p < |s| && s[p] != c ==> p < q
    ensures q < |s| ==> s[q] == c
    ensures forall i :: p <= i < q ==> s[i] != c
    decreases |s| - p
  {
    if p >= |s| || s[p] == c then p else Find(s, p + 1, c)
  }

  // White space and comments.
  function Skip(s: string, p: nat): (q: nat)
    requires p <= |s|
    ensures p <= q <= |s|
    decreases |s| - p
  {
    if p >= |s| then p
    else if IsSpace(s[p]) then Skip(s, p + 1)
    else if s[p] == ';' then Skip(s, Find(s, p, '\n'))
    else p
  }

  function Expect(s: string, p: nat, c: char): (r: Parsed<()>)
    requires p <= |s| && c != '\0'
    ensures Advances(s, p, r)
    ensures r.Got? ==> r.pos == p + 1
  {
    if Cur(s, p) == c then Got((), p + 1) else Fail(ExpectedChar(c, Cur(s, p)))
  }

  function NameEnd(s: string, p: nat): (q: nat)
    requires p <= |s|
    ensures p <= q <= |s|
    decreases |s| - p
  {
    if p >= |s| || !IsNameChar(s[p]) then p else NameEnd(s, p + 1)
  }

  function Name(s: string, p: nat): (r: Parsed<string>)
    requires p <= |s|
    ensures Advances(s, p, r)
  {
    var q := NameEnd(s, p);
    if q == p then Fail(ExpectedSymbol) else Got(s[p..q], q)
  }

  // ---------- Strings ----------

  function Unescape(c: char): char {
    match c
    case 'n' => '\n'
    case 't' => '\t'
    case 'r' => '\r'
    case _ => c
  }

  // The rest of a string literal, up to and including its closing quote.
  function StringRest(s: string, p: nat, escaped: bool): (r: Parsed<string>)
    requires p <= |s|
    ensures Advances(s, p, r)
    decreases |s| - p
  {
    if p >= |s| then Fail(Unterminated)
    else if !escaped && s[p] == '"' then Got("", p + 1)
    else if !escaped && s[p] == '\\' then StringRest(s, p + 1, true)
    else
      var (rest, q) :- StringRest(s, p + 1, false);
      Got([if escaped then Unescape(s[p]) else s[p]] + rest, q)
  }

  function StringAt(s: string, p: nat): (r: Parsed<string>)
    requires p <= |s|
    ensures Advances(s, p, r)
  {
    var (_, q) :- Expect(s, p, '"');
    StringRest(s, q, false)
  }

  // ---------- Numbers ----------

  function DigitsEnd(s: string, p: nat, dotSeen: bool): (q: nat)
    requires p <= |s|
    ensures p <= q <= |s|
    decreases |s| - p
  {
    if p < |s| && IsDigit(s[p]) then DigitsEnd(s, p + 1, dotSeen)
    else if p < |s| && s[p] == '.' && !dotSeen then DigitsEnd(s, p + 1, true)
    else p
  }

  function Pow10(n: nat): nat {
    if n == 0 then 1 else 10 * Pow10(n - 1)
  }

  // The mantissa is computed as the source does, also for negative numbers, with wrap-around; a fraction
  // that does not parse counts as zero.
  function ParseNumber(t: string): Option<Value> {
    var dot := Find(t, 0, '.');
    if dot == |t| then
      match ParseI128(t)
      case Some(n) => Some(Integer(n))
      case None => None
    else
      match ParseI128(t[..dot])
      case None => None
      case Some(whole) =>
        var frac := t[dot + 1..];
        var f: int := match ParseI128(frac) case Some(n) => n case None => 0;
        Some(Decimal(WrapI128(whole * Pow10(|frac| % 256) + f), |frac| % 256))
  }

  function NumberAt(s: string, p: nat): (r: Parsed<Expr>)
    requires p < |s|
    ensures Within(s, p, r)
    ensures (s[p] == '-' || IsDigit(s[p])) ==> Advances(s, p, r)
  {
    var q := DigitsEnd(s, if s[p] == '-' then p + 1 else p, false);
    match ParseNumber(s[p..q])
    case Some(v) => Got(Literal(v), q)
    case None => Fail(InvalidNumber)
  }

  function SymbolAt(s: string, p: nat): (r: Parsed<Expr>)
    requires p <= |s|
    ensures Advances(s, p, r)
  {
    var (name, q) :- Name(s, p);
    var e :=
      if name == "true" then Literal(Boolean(true))
      else if name == "false" then Literal(Boolean(false))
      else Symbol(name);
    Got(e, q)
  }

  // ---------- Parameter lists, fields and annotations ----------

  // Parameter names up to the closing parenthesis; with `typed`, a `: type` after a name is dropped.
  function Params(s: string, p: nat, typed: bool): (r: Parsed<seq<string>>)
    requires p <= |s|
    ensures Advances(s, p, r)
    decreases |s| - p
  {
    var p1 := Skip(s, p);
    if Cur(s, p1) == ')' then Got([], p1 + 1)
    else
      var (name, p2) :- Name(s, p1);
      var (_, p3) :- if typed then TypeNote(s, Skip(s, p2)) else Got((), p2);
      var (rest, p4) :- Params(s, p3, typed);
      Got([name] + rest, p4)
  }

  function TypeNote(s: string, p: nat): (r: Parsed<()>)
    requires p <= |s|
    ensures Within(s, p, r)
  {
    if Cur(s, p) != ':' then Got((), p)
    else
      var (_, q) :- Name(s, Skip(s, p + 1));
      Got((), q)
  }

  function Fields(s: string, p: nat): (r: Parsed<seq<(string, string)>>)
    requires p <= |s|
    ensures Advances(s, p, r)
    decreases |s| - p
  {
    var p1 := Skip(s, p);
    if Cur(s, p1) == ')' then Got([], p1 + 1)
    else
      var (field, p2) :- Name(s, p1);
      var (_, p3) :- Expect(s, Skip(s, p2), ':');
      var (kind, p4) :- Name(s, Skip(s, p3));
      var (rest, p5) :- Fields(s, p4);
      Got([(field, kind)] + rest, p5)
  }

  // Annotations before a parameter list run to the next closing parenthesis. Without one the source
  // moves past the end of the text and panics.
  function DefunNotes(s: string, p: nat): (r: Parsed<()>)
    requires p <= |s|
    ensures Within(s, p, r)
    decreases |s| - p
  {
    if Cur(s, p) != '@' then Got((), p)
    else
      var q := Find(s, p, ')');
      if q == |s| then Panic else DefunNotes(s, Skip(s, q + 1))
  }

  // Annotations and strings before the body of a capability; an annotation runs to the next parenthesis.
  function DefcapNotes(s: string, p: nat): (r: Parsed<()>)
    requires p <= |s|
    ensures Within(s, p, r)
    decreases |s| - p
  {
    if Cur(s, p) == '"' then
      var (_, q) :- StringAt(s, p);
      DefcapNotes(s, Skip(s, q))
    else if Cur(s, p) == '@' then DefcapNotes(s, Skip(s, Paren(s, p)))
    else Got((), p)
  }

  function Paren(s: string, p: nat): (q: nat)
    requires p <= |s|
    ensures p <= q <= |s|
    ensures p < |s| && s[p] != '(' && s[p] != ')' ==> p < q
    decreases |s| - p
  {
    if p >= |s| || s[p] == '(' || s[p] == ')' then p else Paren(s, p + 1)
  }

  // ---------- Expressions ----------

  const KEYWORDS: set<string> := {
    "module", "defun", "defcap", "defschema", "deftable", "let", "let*", "lambda", "if", "with-capability",
    "require-capability", "enforce", "enforce-guard", "read", "write", "insert", "update", "@doc", "@model"}

  function ExprAt(s: string, p: nat): (r: Parsed<Expr>)
    requires p <= |s|
    ensures Advances(s, p, r)
    decreases |s| - p, 3
  {
    var p0 := Skip(s, p);
    if p0 >= |s| then Fail(UnexpectedEnd)
    else if s[p0] == '(' then ListAt(s, p0)
    else if s[p0] == '"' then
      var (str, q) :- StringAt(s, p0);
      Got(Literal(Str(str)), q)
    else if s[p0] == '\'' then
      var (e, q) :- ExprAt(s, p0 + 1);
      Got(App(Symbol("quote"), [e]), q)
    else if s[p0] == '-' || IsDigit(s[p0]) then NumberAt(s, p0)
    else SymbolAt(s, p0)
  }

  function ListAt(s: string, p: nat): (r: Parsed<Expr>)
    requires p < |s|
    ensures Advances(s, p, r)
    decreases |s| - p, 2
  {
    var (_, p1) :- Expect(s, p, '(');
    var p2 := Skip(s, p1);
    if Cur(s, p2) == ')' then Got(Literal(List([])), p2 + 1)
    else
      var (first, p3) :- ExprAt(s, p2);
      if first.Symbol? && first.symbol in KEYWORDS then SpecialAt(first.symbol, s, p3)
      else
        var (args, p4) :- Exprs(s, p3);
        Got(App(first, args), p4)
  }

  // Expressions up to and including a closing parenthesis.
  function Exprs(s: string, p: nat): (r: Parsed<seq<Expr>>)
    requires p <= |s|
    ensures Advances(s, p, r)
    decreases |s| - p, 4
  {
    var p1 := Skip(s, p);
    if Cur(s, p1) == ')' then Got([], p1 + 1)
    else
      var (e, p2) :- ExprAt(s, p1);
      var (rest, p3) :- Exprs(s, p2);
      Got([e] + rest, p3)
  }

  // One expression and the closing parenthesis of the form around it.
  function LastExpr(s: string, p: nat): (r: Parsed<Expr>)
    requires p <= |s|
    ensures Advances(s, p, r)
    decreases |s| - p, 4
  {
    var (e, p1) :- ExprAt(s, p);
    var (_, p2) :- Expect(s, Skip(s, p1), ')');
    Got(e, p2)
  }

  // The forms, from behind their keyword.
  function SpecialAt(keyword: string, s: string, p: nat): (r: Parsed<Expr>)
    requires p <= |s| && keyword in KEYWORDS
    ensures Advances(s, p, r)
    decreases |s| - p, 6
  {
    if keyword == "let" || keyword == "let*" then LetAt(s, p)
    else if keyword == "lambda" then LambdaAt(s, p)
    else if keyword == "if" then IfAt(s, p)
    else if keyword == "with-capability" then WithCapAt(s, p)
    else if keyword == "require-capability" then RequireAt(s, p)
    else if keyword == "enforce" then EnforceAt(s, p)
    else if keyword == "enforce-guard" then
      var (guard, q) :- LastExpr(s, p);
      Got(EnforceGuard(guard), q)
    else if keyword == "read" then
      var (table, p1) :- Name(s, Skip(s, p));
      var (key, p2) :- LastExpr(s, p1);
      Got(Read(table, key), p2)
    else if keyword == "write" then WriteAt(Overwrite, s, p)
    else if keyword == "insert" then WriteAt(InsertRow, s, p)
    else if keyword == "update" then WriteAt(UpdateRow, s, p)
    else if keyword == "module" then ModuleAt(s, p)
    else if keyword == "defun" then DefunAt(s, p)
    else if keyword == "defcap" then DefcapAt(s, p)
    else if keyword == "defschema" then DefschemaAt(s, p)
    else if keyword == "deftable" then DeftableAt(s, p)
    else
      var (_, q) :- LastExpr(s, p);
      Got(Literal(Unit), q)
  }

  function LetAt(s: string, p: nat): (r: Parsed<Expr>)
    requires p <= |s|
    ensures Advances(s, p, r)
    decreases |s| - p, 5
  {
    var (_, p1) :- Expect(s, Skip(s, p), '(');
    var (bindings, p2) :- Bindings(s, p1);
    var (body, p3) :- LastExpr(s, p2);
    Got(Let(bindings, body), p3)
  }

  function Bindings(s: string, p: nat): (r: Parsed<seq<Binding>>)
    requires p <= |s|
    ensures Advances(s, p, r)
    decreases |s| - p, 5
  {
    var p1 := Skip(s, p);
    if Cur(s, p1) == ')' then Got([], p1 + 1)
    else
      var (_, p2) :- Expect(s, p1, '(');
      var (name, p3) :- Name(s, p2);
      var (val, p4) :- LastExpr(s, p3);
      var (rest, p5) :- Bindings(s, p4);
      Got([Binding(name, val)] + rest, p5)
  }

  function LambdaAt(s: string, p: nat): (r: Parsed<Expr>)
    requires p <= |s|
    ensures Advances(s, p, r)
    decreases |s| - p, 5
  {
    var (_, p1) :- Expect(s, Skip(s, p), '(');
    var (params, p2) :- Params(s, p1, false);
    var (body, p3) :- LastExpr(s, p2);
    Got(Lambda(params, body), p3)
  }

  // A missing else branch is the unit value.
  function IfAt(s: string, p: nat): (r: Parsed<Expr>)
    requires p <= |s|
    ensures Advances(s, p, r)
    decreases |s| - p, 5
  {
    var (cond, p1) :- ExprAt(s, p);
    var (thn, p2) :- ExprAt(s, p1);
    var p3 := Skip(s, p2);
    if Cur(s, p3) == ')' then Got(If(cond, thn, Literal(Unit)), p3 + 1)
    else
      var (els, p4) :- LastExpr(s, p3);
      Got(If(cond, thn, els), p4)
  }

  function WithCapAt(s: string, p: nat): (r: Parsed<Expr>)
    requires p <= |s|
    ensures Advances(s, p, r)
    decreases |s| - p, 5
  {
    var (_, p1) :- Expect(s, Skip(s, p), '(');
    var (cap, p2) :- Name(s, p1);
    var (args, p3) :- Exprs(s, p2);
    var (body, p4) :- LastExpr(s, p3);
    Got(WithCapability(cap, args, body), p4)
  }

  function RequireAt(s: string, p: nat): (r: Parsed<Expr>)
    requires p <= |s|
    ensures Advances(s, p, r)
    decreases |s| - p, 5
  {
    var (_, p1) :- Expect(s, Skip(s, p), '(');
    var (cap, p2) :- Name(s, p1);
    var (args, p3) :- Exprs(s, p2);
    var (_, p4) :- Expect(s, Skip(s, p3), ')');
    Got(RequireCapability(cap, args), p4)
  }

  function EnforceAt(s: string, p: nat): (r: Parsed<Expr>)
    requires p <= |s|
    ensures Advances(s, p, r)
    decreases |s| - p, 5
  {
    var (cond, p1) :- ExprAt(s, p);
    var (msg, p2) :- StringAt(s, Skip(s, p1));
    var (_, p3) :- Expect(s, Skip(s, p2), ')');
    Got(Enforce(cond, msg), p3)
  }

  function WriteAt(kind: WriteKind, s: string, p: nat): (r: Parsed<Expr>)
    requires p <= |s|
    ensures Advances(s, p, r)
    decreases |s| - p, 5
  {
    var (table, p1) :- Name(s, Skip(s, p));
    var (key, p2) :- ExprAt(s, p1);
    var (row, p3) :- LastExpr(s, p2);
    Got(Write(kind, table, key, row), p3)
  }

  function ModuleAt(s: string, p: nat): (r: Parsed<Expr>)
    requires p <= |s|
    ensures Advances(s, p, r)
    decreases |s| - p, 5
  {
    var (name, p1) :- Name(s, Skip(s, p));
    var (gov, p2) :- GovernanceAt(s, Skip(s, p1));
    var (defs, p3) :- Exprs(s, p2);
    Got(Module(PactModule(name, ByKeyset(gov), defs)), p3)
  }

  // The governing keyset; a parenthesised governance is read over and counts as the keyset "admin".
  function GovernanceAt(s: string, p: nat): (r: Parsed<string>)
    requires p <= |s|
    ensures Advances(s, p, r)
    decreases |s| - p, 5
  {
    if Cur(s, p) == '\'' then Name(s, p + 1)
    else if Cur(s, p) == '(' then
      var (_, q) :- ExprAt(s, p + 1);
      var q1 := Skip(s, q);
      Got("admin", if Cur(s, q1) == ')' then q1 + 1 else q1)
    else Name(s, p)
  }

  function DefunAt(s: string, p: nat): (r: Parsed<Expr>)
    requires p <= |s|
    ensures Advances(s, p, r)
    decreases |s| - p, 5
  {
    var (name, p1) :- Name(s, Skip(s, p));
    var (doc, p2) :- DocAt(s, Skip(s, p1));
    var (_, p3) :- DefunNotes(s, p2);
    var (_, p4) :- Expect(s, p3, '(');
    var (params, p5) :- Params(s, p4, true);
    var (body, p6) :- LastExpr(s, p5);
    Got(Defun(name, params, body, doc), p6)
  }

  function DocAt(s: string, p: nat): (r: Parsed<Option<string>>)
    requires p <= |s|
    ensures Within(s, p, r)
  {
    if Cur(s, p) != '"' then Got(None, p)
    else
      var (doc, q) :- StringAt(s, p);
      Got(Some(doc), Skip(s, q))
  }

  function DefcapAt(s: string, p: nat): (r: Parsed<Expr>)
    requires p <= |s|
    ensures Advances(s, p, r)
    decreases |s| - p, 5
  {
    var (name, p1) :- Name(s, Skip(s, p));
    var (_, p2) :- Expect(s, Skip(s, p1), '(');
    var (params, p3) :- Params(s, p2, true);
    var (_, p4) :- DefcapNotes(s, Skip(s, p3));
    if Cur(s, p4) == ')' then Got(Defcap(name, params, Literal(Boolean(true))), p4 + 1)
    else
      var (body, p5) :- LastExpr(s, p4);
      Got(Defcap(name, params, body), p5)
  }

  function DefschemaAt(s: string, p: nat): (r: Parsed<Expr>)
    requires p <= |s|
    ensures Advances(s, p, r)
  {
    var (name, p1) :- Name(s, Skip(s, p));
    var (_, p2) :- DocAt(s, Skip(s, p1));
    var (fields, p3) :- Fields(s, p2);
    Got(Defschema(name, fields), p3)
  }

  function DeftableAt(s: string, p: nat): (r: Parsed<Expr>)
    requires p <= |s|
    ensures Advances(s, p, r)
  {
    var (name, p1) :- Name(s, Skip(s, p));
    var (_, p2) :- Expect(s, Skip(s, p1), ':');
    var (_, p3) :- Expect(s, Skip(s, p2), '{');
    var (schema, p4) :- Name(s, Skip(s, p3));
    var (_, p5) :- Expect(s, Skip(s, p4), '}');
    var (_, p6) :- Expect(s, Skip(s, p5), ')');
    Got(Deftable(name, schema), p6)
  }

  // A whole text.
  function AllExprs(s: string, p: nat): (r: Parsed<seq<Expr>>)
    requires p <= |s|
    ensures Within(s, p, r)
    decreases |s| - p
  {
    var p1 := Skip(s, p);
    if p1 >= |s| then Got([], p1)
    else
      var (e, p2) :- ExprAt(s, p1);
      var (rest, p3) :- AllExprs(s, p2);
      Got([e] + rest, p3)
  }
}
