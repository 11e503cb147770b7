/** The recursive-descent parser of `pact.rs`: one cursor moved through the text by loops and by methods
    that call each other. Every method parses what PactGrammar says stands at the cursor. */
module PactParser {
  import opened Wrappers
  import opened PactSyntax
  import opened PactText
  import opened PactGrammar

  datatype Step<+T> = Value(v: T) | Error(error: ParseError) | Panicked {
    predicate IsFailure() {
      !Value?
    }

    function PropagateFailure<U>(): Step<U>
      requires !Value?
    {
      if Error? then Error(error) else Panicked
    }

    function Extract(): T
      requires Value?
    {
      v
    }
  }

  // Lists that loops collect.

  function Cons<T>(x: T, rest: Parsed<seq<T>>): Parsed<seq<T>> {
    var (xs, q) :- rest;
    Got([x] + xs, q)
  }

  function Prepend<T>(done: seq<T>, rest: Parsed<seq<T>>): Parsed<seq<T>> {
    var (xs, q) :- rest;
    Got(done + xs, q)
  }

  lemma PrependNone<T>(rest: Parsed<seq<T>>)
    ensures Prepend([], rest) == rest
  {
    if rest.Got? {
      assert [] + rest.value == rest.value;
    }
  }

  lemma PrependOne<T>(done: seq<T>, x: T, rest: Parsed<seq<T>>)
    ensures Prepend(done, Cons(x, rest)) == Prepend(done + [x], rest)
  {
    if rest.Got? {
      assert done + ([x] + rest.value) == (done + [x]) + rest.value;
    }
  }

  lemma PrependEnd<T>(done: seq<T>, q: nat)
    ensures Prepend(done, Got([], q)) == Got(done, q)
  {
    assert done + [] == done;
  }

  class Parser {
    const input: string
    var pos: nat

    constructor (input: string)
      ensures this.input == input && pos == 0
    {
      this.input := input;
      pos := 0;
    }

    // The cursor and the outcome are the ones the grammar gives.
    ghost predicate Follows<T>(r: Step<T>, spec: Parsed<T>)
      reads this
    {
      match spec
      case Got(v, q) => r == Value(v) && pos == q
      case Fail(e) => r == Error(e)
      case Panic => r.Panicked?
    }

    // ---------- The cursor ----------

    function Current(): (c: char)
      requires pos <= |input|
      reads this
      ensures c == Cur(input, pos)
    {
      if pos < |input| then input[pos] else '\0'
    }

    method SkipWhitespace()
      requires pos <= |input|
      modifies this
      ensures pos == Skip(input, old(pos))
    {
      while pos < |input|
        invariant pos <= |input| && Skip(input, pos) == Skip(input, old(pos))
        decreases |input| - pos
      {
        if IsSpace(Current()) {
          pos := pos + 1;
        } else if Current() == ';' {
          SkipUntil('\n');
        } else {
          break;
        }
      }
    }

    method SkipUntil(c: char)
      requires pos <= |input|
      modifies this
      ensures pos == Find(input, old(pos), c)
    {
      while pos < |input| && Current() != c
        invariant pos <= |input| && Find(input, pos, c) == Find(input, old(pos), c)
        decreases |input| - pos
      {
        pos := pos + 1;
      }
    }

    method ExpectChar(c: char) returns (r: Step<()>)
      requires pos <= |input| && c != '\0'
      modifies this
      ensures Follows(r, Expect(input, old(pos), c))
    {
      if Current() == c {
        pos := pos + 1;
        return Value(());
      }
      return Error(ExpectedChar(c, Current()));
    }

    // White space, then the character.
    method SkipTo(c: char) returns (r: Step<()>)
      requires pos <= |input| && c != '\0'
      modifies this
      ensures Follows(r, Expect(input, Skip(input, old(pos)), c))
    {
      SkipWhitespace();
      r := ExpectChar(c);
    }

    // ---------- Words, strings and numbers ----------

    method ParseSymbolName() returns (r: Step<string>)
      requires pos <= |input|
      modifies this
      ensures Follows(r, Name(input, old(pos)))
    {
      var start := pos;
      while pos < |input| && IsNameChar(Current())
        invariant start <= pos <= |input| && NameEnd(input, pos) == NameEnd(input, start)
        decreases |input| - pos
      {
        pos := pos + 1;
      }
      if pos == start {
        return Error(ExpectedSymbol);
      }
      return Value(input[start..pos]);
    }

    method SkipAndName() returns (r: Step<string>)
      requires pos <= |input|
      modifies this
      ensures Follows(r, Name(input, Skip(input, old(pos))))
    {
      SkipWhitespace();
      r := ParseSymbolName();
    }

    method ParseStringValue() returns (r: Step<string>)
      requires pos <= |input|
      modifies this
      ensures Follows(r, StringAt(input, old(pos)))
    {
      var _ :- ExpectChar('"');
      var str, escaped := "", false;
      ghost var start := pos;
      PrependNone(StringRest(input, start, false));
      while pos < |input|
        invariant start <= pos <= |input|
        invariant StringRest(input, start, false) == Prepend(str, StringRest(input, pos, escaped))
        decreases |input| - pos
      {
        var ch := Current();
        if escaped {
          PrependOne(str, Unescape(ch), StringRest(input, pos + 1, false));
          str := str + [Unescape(ch)];
          escaped := false;
        } else if ch == '\\' {
          escaped := true;
        } else if ch == '"' {
          PrependEnd(str, pos + 1);
          pos := pos + 1;
          return Value(str);
        } else {
          PrependOne(str, ch, StringRest(input, pos + 1, false));
          str := str + [ch];
        }
        pos := pos + 1;
      }
      return Error(Unterminated);
    }

    method ParseNumberAt() returns (r: Step<Expr>)
      requires pos < |input|
      modifies this
      ensures Follows(r, NumberAt(input, old(pos)))
    {
      var start := pos;
      var hasDecimal := false;
      if Current() == '-' {
        pos := pos + 1;
      }
      ghost var first := pos;
      while pos < |input|
        invariant first <= pos <= |input|
        invariant DigitsEnd(input, pos, hasDecimal) == DigitsEnd(input, first, false)
        decreases |input| - pos
      {
        if IsDigit(Current()) {
          pos := pos + 1;
        } else if Current() == '.' && !hasDecimal {
          hasDecimal := true;
          pos := pos + 1;
        } else {
          break;
        }
      }
      match ParseNumber(input[start..pos])
      case Some(v) => return Value(Literal(v));
      case None => return Error(InvalidNumber);
    }

    method ParseSymbol() returns (r: Step<Expr>)
      requires pos <= |input|
      modifies this
      ensures Follows(r, SymbolAt(input, old(pos)))
    {
      var name :- ParseSymbolName();
      if name == "true" {
        return Value(Literal(Boolean(true)));
      }
      if name == "false" {
        return Value(Literal(Boolean(false)));
      }
      return Value(Symbol(name));
    }

    // ---------- Parameter lists, fields and annotations ----------

    method ParseParams(typed: bool) returns (r: Step<seq<string>>)
      requires pos <= |input|
      modifies this
      ensures Follows(r, Params(input, old(pos), typed))
    {
      hide Skip, Name, TypeNote;
      var params: seq<string> := [];
      ghost var start := pos;
      PrependNone(Params(input, start, typed));
      while true
        invariant start <= pos <= |input|
        invariant Params(input, start, typed) == Prepend(params, Params(input, pos, typed))
        decreases |input| - pos
      {
        SkipWhitespace();
        if Current() == ')' {
          PrependEnd(params, pos + 1);
          pos := pos + 1;
          return Value(params);
        }
        var name :- ParseSymbolName();
        if typed {
          SkipWhitespace();
          var _ :- ParseTypeNote();
        }
        PrependOne(params, name, Params(input, pos, typed));
        params := params + [name];
      }
    }

    method ParseTypeNote() returns (r: Step<()>)
      requires pos <= |input|
      modifies this
      ensures Follows(r, TypeNote(input, old(pos)))
    {
      if Current() == ':' {
        pos := pos + 1;
        var _ :- SkipAndName();
      }
      return Value(());
    }

    method ParseFields() returns (r: Step<seq<(string, string)>>)
      requires pos <= |input|
      modifies this
      ensures Follows(r, Fields(input, old(pos)))
    {
      var fields: seq<(string, string)> := [];
      ghost var start := pos;
      PrependNone(Fields(input, start));
      while true
        invariant start <= pos <= |input|
        invariant Fields(input, start) == Prepend(fields, Fields(input, pos))
        decreases |input| - pos
      {
        SkipWhitespace();
        if Current() == ')' {
          PrependEnd(fields, pos + 1);
          pos := pos + 1;
          return Value(fields);
        }
        var field :- ParseSymbolName();
        var _ :- SkipTo(':');
        var kind :- SkipAndName();
        PrependOne(fields, (field, kind), Fields(input, pos));
        fields := fields + [(field, kind)];
      }
    }

    method ParseDoc() returns (r: Step<Option<string>>)
      requires pos <= |input|
      modifies this
      ensures Follows(r, DocAt(input, old(pos)))
    {
      if Current() != '"' {
        return Value(None);
      }
      var doc :- ParseStringValue();
      SkipWhitespace();
      return Value(Some(doc));
    }

    method SkipDefunNotes() returns (r: Step<()>)
      requires pos <= |input|
      modifies this
      ensures Follows(r, DefunNotes(input, old(pos)))
    {
      while Current() == '@'
        invariant pos <= |input| && DefunNotes(input, pos) == DefunNotes(input, old(pos))
        decreases |input| - pos
      {
        SkipUntil(')');
        if pos == |input| {
          return Panicked;
        }
        pos := pos + 1;
        SkipWhitespace();
      }
      return Value(());
    }

    method SkipDefcapNotes() returns (r: Step<()>)
      requires pos <= |input|
      modifies this
      ensures Follows(r, DefcapNotes(input, old(pos)))
    {
      while Current() == '@' || Current() == '"'
        invariant pos <= |input| && DefcapNotes(input, pos) == DefcapNotes(input, old(pos))
        decreases |input| - pos
      {
        if Current() == '"' {
          var _ :- ParseStringValue();
        } else {
          SkipToParen();
        }
        SkipWhitespace();
      }
      return Value(());
    }

    method SkipToParen()
      requires pos <= |input|
      modifies this
      ensures pos == Paren(input, old(pos))
    {
      while pos < |input| && Current() != ')' && Current() != '('
        invariant pos <= |input| && Paren(input, pos) == Paren(input, old(pos))
        decreases |input| - pos
      {
        pos := pos + 1;
      }
    }

    // ---------- Expressions ----------

    method ParseExpr() returns (r: Step<Expr>)
      requires pos <= |input|
      modifies this
      ensures Follows(r, ExprAt(input, old(pos)))
      decreases |input| - pos, 3
    {
      hide ListAt, NumberAt, SymbolAt, StringAt, Skip;
      SkipWhitespace();
      if pos >= |input| {
        return Error(UnexpectedEnd);
      }
      var ch := Current();
      if ch == '(' {
        r := ParseList();
      } else if ch == '"' {
        var str :- ParseStringValue();
        r := Value(Literal(Str(str)));
      } else if ch == '\'' {
        pos := pos + 1;
        var e :- ParseExpr();
        r := Value(App(Symbol("quote"), [e]));
      } else if ch == '-' || IsDigit(ch) {
        r := ParseNumberAt();
      } else {
        r := ParseSymbol();
      }
    }

    method ParseList() returns (r: Step<Expr>)
      requires pos < |input|
      modifies this
      ensures Follows(r, ListAt(input, old(pos)))
      decreases |input| - pos, 2
    {
      hide ExprAt, Exprs, SpecialAt, Skip;
      var _ :- ExpectChar('(');
      SkipWhitespace();
      if Current() == ')' {
        pos := pos + 1;
        return Value(Literal(List([])));
      }
      var first :- ParseExpr();
      if first.Symbol? && first.symbol in KEYWORDS {
        r := ParseSpecial(first.symbol);
      } else {
        var args :- ParseExprs();
        r := Value(App(first, args));
      }
    }

    // The loop that collects expressions up to a closing parenthesis.
    method ParseExprs() returns (r: Step<seq<Expr>>)
      requires pos <= |input|
      modifies this
      ensures Follows(r, Exprs(input, old(pos)))
      decreases |input| - pos, 4
    {
      hide ExprAt, Skip;
      var es: seq<Expr> := [];
      ghost var start := pos;
      PrependNone(Exprs(input, start));
      while true
        invariant start <= pos <= |input|
        invariant Exprs(input, start) == Prepend(es, Exprs(input, pos))
        decreases |input| - pos
      {
        SkipWhitespace();
        if Current() == ')' {
          PrependEnd(es, pos + 1);
          pos := pos + 1;
          return Value(es);
        }
        var e :- ParseExpr();
        PrependOne(es, e, Exprs(input, pos));
        es := es + [e];
      }
    }

    method ParseLast() returns (r: Step<Expr>)
      requires pos <= |input|
      modifies this
      ensures Follows(r, LastExpr(input, old(pos)))
      decreases |input| - pos, 4
    {
      hide ExprAt, Skip;
      var e :- ParseExpr();
      var _ :- SkipTo(')');
      r := Value(e);
    }

    method ParseSpecial(keyword: string) returns (r: Step<Expr>)
      requires pos <= |input| && keyword in KEYWORDS
      modifies this
      ensures Follows(r, SpecialAt(keyword, input, old(pos)))
      decreases |input| - pos, 6
    {
      hide LetAt, LambdaAt, IfAt, WithCapAt, RequireAt, EnforceAt, LastExpr, WriteAt, ModuleAt, DefunAt, DefcapAt,
        DefschemaAt, DeftableAt, Skip, Name;
      match keyword
      case "let" => r := ParseLet();
      case "let*" => r := ParseLet();
      case "lambda" => r := ParseLambda();
      case "if" => r := ParseIf();
      case "with-capability" => r := ParseWithCapability();
      case "require-capability" => r := ParseRequireCapability();
      case "enforce" => r := ParseEnforce();
      case "enforce-guard" =>
        var guard :- ParseLast();
        r := Value(EnforceGuard(guard));
      case "read" =>
        var table :- SkipAndName();
        var key :- ParseLast();
        r := Value(Read(table, key));
      case "write" => r := ParseWrite(Overwrite);
      case "insert" => r := ParseWrite(InsertRow);
      case "update" => r := ParseWrite(UpdateRow);
      case "module" => r := ParseModule();
      case "defun" => r := ParseDefun();
      case "defcap" => r := ParseDefcap();
      case "defschema" => r := ParseDefschema();
      case "deftable" => r := ParseDeftable();
      case _ =>
        var _ :- ParseLast();
        r := Value(Literal(Unit));
    }

    method ParseLet() returns (r: Step<Expr>)
      requires pos <= |input|
      modifies this
      ensures Follows(r, LetAt(input, old(pos)))
      decreases |input| - pos, 5
    {
      hide Bindings, LastExpr, Skip;
      var _ :- SkipTo('(');
      var bindings :- ParseBindings();
      var body :- ParseLast();
      r := Value(Let(bindings, body));
    }

    method ParseBindings() returns (r: Step<seq<Binding>>)
      requires pos <= |input|
      modifies this
      ensures Follows(r, Bindings(input, old(pos)))
      decreases |input| - pos, 5
    {
      hide LastExpr, Skip, Name;
      var bindings: seq<Binding> := [];
      ghost var start := pos;
      PrependNone(Bindings(input, start));
      while true
        invariant start <= pos <= |input|
        invariant Bindings(input, start) == Prepend(bindings, Bindings(input, pos))
        decreases |input| - pos
      {
        SkipWhitespace();
        if Current() == ')' {
          PrependEnd(bindings, pos + 1);
          pos := pos + 1;
          return Value(bindings);
        }
        var _ :- ExpectChar('(');
        var name :- ParseSymbolName();
        var val :- ParseLast();
        PrependOne(bindings, Binding(name, val), Bindings(input, pos));
        bindings := bindings + [Binding(name, val)];
      }
    }

    method ParseLambda() returns (r: Step<Expr>)
      requires pos <= |input|
      modifies this
      ensures Follows(r, LambdaAt(input, old(pos)))
      decreases |input| - pos, 5
    {
      hide Params, LastExpr, Skip;
      var _ :- SkipTo('(');
      var params :- ParseParams(false);
      var body :- ParseLast();
      r := Value(Lambda(params, body));
    }

    method ParseIf() returns (r: Step<Expr>)
      requires pos <= |input|
      modifies this
      ensures Follows(r, IfAt(input, old(pos)))
      decreases |input| - pos, 5
    {
      hide ExprAt, LastExpr, Skip;
      var cond :- ParseExpr();
      var thn :- ParseExpr();
      SkipWhitespace();
      if Current() == ')' {
        pos := pos + 1;
        return Value(If(cond, thn, Literal(Unit)));
      }
      var els :- ParseLast();
      r := Value(If(cond, thn, els));
    }

    method ParseWithCapability() returns (r: Step<Expr>)
      requires pos <= |input|
      modifies this
      ensures Follows(r, WithCapAt(input, old(pos)))
      decreases |input| - pos, 5
    {
      hide Exprs, LastExpr, Skip, Name;
      var _ :- SkipTo('(');
      var cap :- ParseSymbolName();
      var args :- ParseExprs();
      var body :- ParseLast();
      r := Value(WithCapability(cap, args, body));
    }

    method ParseRequireCapability() returns (r: Step<Expr>)
      requires pos <= |input|
      modifies this
      ensures Follows(r, RequireAt(input, old(pos)))
      decreases |input| - pos, 5
    {
      hide Exprs, Skip, Name;
      var _ :- SkipTo('(');
      var cap :- ParseSymbolName();
      var args :- ParseExprs();
      var _ :- SkipTo(')');
      r := Value(RequireCapability(cap, args));
    }

    method ParseEnforce() returns (r: Step<Expr>)
      requires pos <= |input|
      modifies this
      ensures Follows(r, EnforceAt(input, old(pos)))
      decreases |input| - pos, 5
    {
      hide ExprAt, StringAt, Skip;
      var cond :- ParseExpr();
      SkipWhitespace();
      var msg :- ParseStringValue();
      var _ :- SkipTo(')');
      r := Value(Enforce(cond, msg));
    }

    method ParseWrite(kind: WriteKind) returns (r: Step<Expr>)
      requires pos <= |input|
      modifies this
      ensures Follows(r, WriteAt(kind, input, old(pos)))
      decreases |input| - pos, 5
    {
      hide ExprAt, LastExpr, Skip, Name;
      var table :- SkipAndName();
      var key :- ParseExpr();
      var row :- ParseLast();
      r := Value(Write(kind, table, key, row));
    }

    method ParseModule() returns (r: Step<Expr>)
      requires pos <= |input|
      modifies this
      ensures Follows(r, ModuleAt(input, old(pos)))
      decreases |input| - pos, 5
    {
      hide GovernanceAt, Exprs, Skip, Name;
      var name :- SkipAndName();
      SkipWhitespace();
      var gov :- ParseGovernance();
      var defs :- ParseExprs();
      r := Value(Module(PactModule(name, ByKeyset(gov), defs)));
    }

    method ParseGovernance() returns (r: Step<string>)
      requires pos <= |input|
      modifies this
      ensures Follows(r, GovernanceAt(input, old(pos)))
      decreases |input| - pos, 5
    {
      hide ExprAt, Skip, Name;
      if Current() == '\'' {
        pos := pos + 1;
        r := ParseSymbolName();
      } else if Current() == '(' {
        pos := pos + 1;
        var _ :- ParseExpr();
        SkipWhitespace();
        if Current() == ')' {
          pos := pos + 1;
        }
        r := Value("admin");
      } else {
        r := ParseSymbolName();
      }
    }

    method ParseDefun() returns (r: Step<Expr>)
      requires pos <= |input|
      modifies this
      ensures Follows(r, DefunAt(input, old(pos)))
      decreases |input| - pos, 5
    {
      hide DocAt, DefunNotes, Params, LastExpr, Skip, Name;
      var name :- SkipAndName();
      SkipWhitespace();
      var doc :- ParseDoc();
      var _ :- SkipDefunNotes();
      var _ :- ExpectChar('(');
      var params :- ParseParams(true);
      var body :- ParseLast();
      r := Value(Defun(name, params, body, doc));
    }

    method ParseDefcap() returns (r: Step<Expr>)
      requires pos <= |input|
      modifies this
      ensures Follows(r, DefcapAt(input, old(pos)))
      decreases |input| - pos, 5
    {
      hide DefcapNotes, Params, LastExpr, Skip, Name;
      var name :- SkipAndName();
      var _ :- SkipTo('(');
      var params :- ParseParams(true);
      SkipWhitespace();
      var _ :- SkipDefcapNotes();
      if Current() == ')' {
        pos := pos + 1;
        return Value(Defcap(name, params, Literal(Boolean(true))));
      }
      var body :- ParseLast();
      r := Value(Defcap(name, params, body));
    }

    method ParseDefschema() returns (r: Step<Expr>)
      requires pos <= |input|
      modifies this
      ensures Follows(r, DefschemaAt(input, old(pos)))
      decreases |input| - pos, 5
    {
      hide DocAt, Fields, Skip, Name;
      var name :- SkipAndName();
      SkipWhitespace();
      var _ :- ParseDoc();
      var fields :- ParseFields();
      r := Value(Defschema(name, fields));
    }

    method ParseDeftable() returns (r: Step<Expr>)
      requires pos <= |input|
      modifies this
      ensures Follows(r, DeftableAt(input, old(pos)))
      decreases |input| - pos, 5
    {
      hide Skip, Name;
      var name :- SkipAndName();
      var _ :- SkipTo(':');
      var _ :- SkipTo('{');
      var schema :- SkipAndName();
      var _ :- SkipTo('}');
      var _ :- SkipTo(')');
      r := Value(Deftable(name, schema));
    }

    // The whole text, from wherever the cursor stands.
    method ParseAll() returns (r: Step<seq<Expr>>)
      requires pos <= |input|
      modifies this
      ensures Follows(r, AllExprs(input, old(pos)))
    {
      hide ExprAt, Skip;
      var es: seq<Expr> := [];
      ghost var start := pos;
      PrependNone(AllExprs(input, start));
      while pos < |input|
        invariant start <= pos <= |input|
        invariant AllExprs(input, start) == Prepend(es, AllExprs(input, pos))
        decreases |input| - pos
      {
        SkipWhitespace();
        if pos >= |input| {
          break;
        }
        var e :- ParseExpr();
        PrependOne(es, e, AllExprs(input, pos));
        es := es + [e];
      }
      PrependEnd(es, pos);
      r := Value(es);
    }
  }
}
