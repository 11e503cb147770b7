/** When a Pact execution panics: a builtin lacks an argument or a quotient overflows, or a text ends inside an
    annotation. And which programs never do. */
module PactPanics {
  import opened Ints
  import opened Wrappers
  import opened Gas
  import opened PactSyntax
  import opened PactText
  import opened PactSemantics
  import opened PactRun
  import PactGrammar
  import PactPrinter

  // ---------- Builtins ----------

  datatype Kind = Any | Int | Text

  predicate Has(kind: Kind, v: Value) {
    kind == Any || (kind == Int && v.Integer?) || (kind == Text && v.Str?)
  }

  // The arguments that a builtin takes by position without looking whether they are there, in the order in which
  // it takes them, and the kinds it checks on the way.
  function Needs(op: string): seq<Kind> {
    if op == "abs" then [Int]
    else if op == "mod" then [Int, Int]
    else if op in ARITHMETIC then []
    else if op == "=" || op == "==" || op == "!=" then [Any, Any]
    else if op in RELATIONAL then [Int, Int]
    else if op == "not" then [Any]
    else if op in LOGICAL then [Any, Any]
    else if op == "concat" || op == "list" then []
    else if op == "length" || op == "reverse" then [Any]
    else if op == "contains" then [Any, Any]
    else if op in SEQUENCES then [Int, Any]
    else if op == "^" || op == "pow" || op == "enumerate" then [Int, Int]
    else if op == "add-time" then [Any, Any]
    else if op == "define-keyset" then [Text, Any]
    else if op == "create-user-guard" then []
    else if IsPure(op) || op in EFFECTFUL then [Any]
    else []
  }

  // One is missing, and those before it are of the right kinds.
  predicate RunsOut(kinds: seq<Kind>, args: seq<Value>) {
    |args| < |kinds| && forall i :: 0 <= i < |args| ==> Has(kinds[i], args[i])
  }

  const LEAST: i128 := -0x8000_0000_0000_0000_0000_0000_0000_0000

  predicate Overflows(op: string, args: seq<Value>) {
    && (op == "/" || op == "mod") && |args| >= 2
    && args[0] == Integer(LEAST) && args[1] == Integer(-1)
  }

  lemma ArithmeticPanicsIff(op: string, args: seq<Value>)
    requires op in ARITHMETIC
    ensures PactSemantics.Arithmetic(op, args).Panic? <==> RunsOut(Needs(op), args) || Overflows(op, args)
  {
  }

  lemma RelationalPanicsIff(op: string, args: seq<Value>)
    requires op in RELATIONAL
    ensures Relational(op, args).Panic? <==> RunsOut(Needs(op), args)
  {
  }

  lemma LogicalPanicsIff(op: string, args: seq<Value>)
    requires op in LOGICAL
    ensures Logical(op, args).Panic? <==> RunsOut(Needs(op), args)
  {
  }

  lemma {:induction false} ConcatDoesNotPanic(args: seq<Value>)
    ensures !Concat(args).Panic?
    decreases |args|
  {
    if args != [] {
      ConcatDoesNotPanic(args[1..]);
    }
  }

  lemma SequencesPanicsIff(op: string, args: seq<Value>)
    requires op in SEQUENCES
    ensures Sequences(op, args).Panic? <==> RunsOut(Needs(op), args)
  {
    ConcatDoesNotPanic(args);
    hide Concat, Utf8Length;
  }

  lemma ConvertingPanicsIff(op: string, args: seq<Value>, h: Host)
    requires op in CONVERTING
    ensures Converting(op, args, h).Panic? <==> RunsOut(Needs(op), args)
  {
    if op == "add-time" || op == "time" || op == "format" {
      TimeOrTextPanicsIff(op, args, h);
    } else if op == "str-to-int" || op == "int-to-str" {
      NumberTextPanicsIff(op, args, h);
    } else {
      NumberPanicsIff(op, args, h);
    }
  }

  lemma TimeOrTextPanicsIff(op: string, args: seq<Value>, h: Host)
    requires op == "add-time" || op == "time" || op == "format"
    ensures Converting(op, args, h).Panic? <==> RunsOut(Needs(op), args)
  {
    hide Power, Formatted, WrapI64;
  }

  lemma NumberPanicsIff(op: string, args: seq<Value>, h: Host)
    requires op == "^" || op == "pow" || op == "enumerate"
    ensures Converting(op, args, h).Panic? <==> RunsOut(Needs(op), args)
  {
    hide Power, WrapI128;
  }

  lemma NumberTextPanicsIff(op: string, args: seq<Value>, h: Host)
    requires op == "str-to-int" || op == "int-to-str"
    ensures Converting(op, args, h).Panic? <==> RunsOut(Needs(op), args)
  {
    hide ParseI128, PrintInt, PrintHex;
  }

  lemma OthersPanicIff(op: string, args: seq<Value>)
    requires op in OTHER_PURE
    ensures OtherPure(op, args).Panic? <==> RunsOut(Needs(op), args)
  {
    hide TypeName;
  }

  lemma SqrtOrSortPanicsIff(op: string, args: seq<Value>, h: Host)
    requires op in SQRT_AND_SORT
    ensures SqrtOrSort(op, args, h).Panic? <==> RunsOut(Needs(op), args)
  {
    hide Sorted, Uniform;
  }

  lemma {:induction false} KeyNamesDoesNotPanic(vs: seq<Value>)
    ensures !KeyNames(vs).Panic?
    decreases |vs|
  {
    if vs != [] {
      KeyNamesDoesNotPanic(vs[1..]);
    }
  }

  lemma EffectfulPanicsIff(op: string, args: seq<Value>, st: Store, h: Host, limit: u64)
    requires op in EFFECTFUL
    ensures Effectful(op, args, st, h, limit).out.Panic? <==>
            RunsOut(Needs(op), args) && (op == "hash" ==> Fits(st.used, SHA3_BASE, limit))
  {
    hide HashOf, DefineKeyset;
    HashPanicsIff(args, st, h, limit);
    DefineKeysetPanicsIff(args);
  }

  lemma HashPanicsIff(args: seq<Value>, st: Store, h: Host, limit: u64)
    ensures HashOf(args, st, h, limit).out.Panic? <==> args == [] && Fits(st.used, SHA3_BASE, limit)
  {
    hide Words, Utf8Length;
  }

  lemma DefineKeysetPanicsIff(args: seq<Value>)
    ensures DefineKeyset(args).Panic? <==> RunsOut([Text, Any], args)
  {
    hide KeyNames;
    if |args| > 1 && args[1].List? {
      KeyNamesDoesNotPanic(args[1].items);
    }
  }

  // A builtin panics if and only if an argument is missing where it takes one, or the least integer is divided by
  // minus one; hashing pays first.
  lemma BuiltinPanicsIff(op: string, args: seq<Value>, st: Store, h: Host, limit: u64)
    requires IsPure(op) || op in EFFECTFUL
    ensures Builtin(op, args, st, h, limit).out.Panic? <==>
            || (RunsOut(Needs(op), args) && (op == "hash" ==> Fits(st.used, SHA3_BASE, limit)))
            || Overflows(op, args)
  {
    hide Effectful, PactSemantics.Arithmetic, Relational, Logical, Sequences, OtherPure, Converting, SqrtOrSort, Needs;
    if op in EFFECTFUL {
      EffectfulPanicsIff(op, args, st, h, limit);
    } else if op in ARITHMETIC {
      ArithmeticPanicsIff(op, args);
    } else if op in RELATIONAL {
      RelationalPanicsIff(op, args);
    } else if op in LOGICAL {
      LogicalPanicsIff(op, args);
    } else if op in SEQUENCES {
      SequencesPanicsIff(op, args);
    } else if op in CONVERTING {
      ConvertingPanicsIff(op, args, h);
    } else if op in OTHER_PURE {
      OthersPanicIff(op, args);
    } else {
      SqrtOrSortPanicsIff(op, args, h);
    }
  }

  // ---------- Programs that never panic ----------

  // Every builtin is applied to as many arguments as it takes, and divisors are constants other than minus one.
  predicate Enough(op: string, args: seq<Expr>) {
    && |args| >= |Needs(op)|
    && ((op == "/" || op == "mod") && |args| >= 2 ==> args[1].Literal? && args[1].value != Integer(-1))
  }

  predicate Safe(e: Expr)
    decreases e, 1
  {
    match e
    case App(func, args) =>
      AllSafe(args) && if func.Symbol? then Enough(func.symbol, args) else Safe(func)
    case Let(bindings, body) => BindingsSafe(bindings) && Safe(body)
    case If(cond, thn, els) => Safe(cond) && Safe(thn) && Safe(els)
    case Module(m) => AllSafe(m.definitions)
    case Defun(_, _, body, _) => Safe(body)
    case Defcap(_, _, body) => Safe(body)
    case WithCapability(_, args, body) => AllSafe(args) && Safe(body)
    case RequireCapability(_, args) => AllSafe(args)
    case Read(_, key) => Safe(key)
    case Write(_, _, key, row) => Safe(key) && Safe(row)
    case Enforce(cond, _) => Safe(cond)
    case EnforceGuard(guard) => Safe(guard)
    case _ => true
  }

  predicate AllSafe(es: seq<Expr>)
    decreases es, 0
  {
    forall i :: 0 <= i < |es| ==> Safe(es[i])
  }

  predicate BindingsSafe(bs: seq<Binding>)
    decreases bs, 0
  {
    forall i :: 0 <= i < |bs| ==> Safe(bs[i].val)
  }

  // All that is defined so far is safe.
  predicate SafeStore(st: Store) {
    && (forall f :: f in st.functions ==> Safe(st.functions[f].body))
    && (forall c :: c in st.capabilities ==> Safe(st.capabilities[c].body))
  }

  predicate Calm<T>(r: Res<T>) {
    !r.out.Panic? && SafeStore(r.st)
  }

  lemma SpendIsCalm(st: Store, amount: nat, limit: u64)
    requires SafeStore(st)
    ensures Calm(Spend(st, amount, limit))
  {
  }

  lemma SameDefinitions(st: Store, st1: Store)
    requires SafeStore(st) && st1.functions == st.functions && st1.capabilities == st.capabilities
    ensures SafeStore(st1)
  {
  }

  lemma {:induction false} EvalIsCalm(e: Expr, sc: Scope, st: Store, h: Host, limit: u64)
    requires Safe(e) && SafeStore(st)
    ensures Calm(Eval(e, sc, st, h, limit))
    decreases Rank(sc), 0, 0
  {
    hide Form, Spend, Safe, SafeStore;
    SpendIsCalm(st, BASE, limit);
    if sc.depth + 1 <= MAX_RECURSION_DEPTH && Spend(st, BASE, limit).out.Ok? {
      FormIsCalm(e, sc.(depth := sc.depth + 1), Spend(st, BASE, limit).st, h, limit);
    }
  }

  lemma {:induction false} FormIsCalm(e: Expr, sc: Scope, st: Store, h: Host, limit: u64)
    requires Safe(e) && SafeStore(st)
    ensures Calm(Form(e, sc, st, h, limit))
    decreases Rank(sc), 4, 0
  {
    hide Eval, Args, LetIn, WithCap, LoadModule, Application, ReadRow, WriteRow, Conditional, RequireCap, EnforceThat,
      EnforceGuardOf, SafeStore, AllSafe, BindingsSafe, Enough;
    match e
    case App(func, args) => ApplicationIsCalm(func, args, sc, st, h, limit);
    case Let(bindings, body) => LetIsCalm(bindings, body, sc, st, h, limit);
    case If(cond, thn, els) => ConditionalIsCalm(cond, thn, els, sc, st, h, limit);
    case Module(m) => ModuleIsCalm(m, sc, st, h, limit);
    case WithCapability(cap, args, body) => WithCapIsCalm(cap, args, body, sc, st, h, limit);
    case RequireCapability(cap, args) => RequireIsCalm(cap, args, sc, st, h, limit);
    case Read(table, key) => ReadIsCalm(table, key, sc, st, h, limit);
    case Write(_, table, key, row) => WriteIsCalm(table, key, row, sc, st, h, limit);
    case Enforce(cond, msg) => EnforceIsCalm(cond, msg, sc, st, h, limit);
    case EnforceGuard(guard) => EnforceGuardIsCalm(guard, sc, st, h, limit);
    case _ => SimpleIsCalm(e, sc, st, h, limit);
  }

  predicate Simple(e: Expr) {
    || e.Literal? || e.Symbol? || e.Lambda? || e.Defun? || e.Defcap? || e.Defschema? || e.Deftable? || e.Property?
    || e.Interface?
  }

  lemma SimpleIsCalm(e: Expr, sc: Scope, st: Store, h: Host, limit: u64)
    requires Simple(e) && Safe(e) && SafeStore(st)
    ensures Calm(Form(e, sc, st, h, limit))
  {
    hide LambdaText, FullName, ModuleName;
  }

  lemma {:induction false} ConditionalIsCalm(cond: Expr, thn: Expr, els: Expr, sc: Scope, st: Store, h: Host,
                                             limit: u64)
    requires Safe(cond) && Safe(thn) && Safe(els) && SafeStore(st)
    ensures Calm(Conditional(cond, thn, els, sc, st, h, limit))
    decreases Rank(sc), 1, 0
  {
    hide Eval, Safe, SafeStore, ToBool;
    EvalIsCalm(cond, sc, st, h, limit);
    var r := Eval(cond, sc, st, h, limit);
    if r.out.Ok? {
      EvalIsCalm(if ToBool(r.out.value) then thn else els, sc, r.st, h, limit);
    }
  }

  // Arguments are as many values, and constants are themselves.
  lemma {:induction false} ArgsAreCalm(args: seq<Expr>, sc: Scope, st: Store, h: Host, limit: u64)
    requires AllSafe(args) && SafeStore(st)
    ensures var r := Args(args, sc, st, h, limit);
            && Calm(r)
            && (r.out.Ok? ==> |r.out.value| == |args|)
            && (r.out.Ok? ==> forall i :: 0 <= i < |args| && args[i].Literal? ==> r.out.value[i] == args[i].value)
    decreases Rank(sc), 1, |args|
  {
    hide Eval, Safe, SafeStore;
    if args != [] {
      EvalIsCalm(args[0], sc, st, h, limit);
      LiteralIsItself(args[0], sc, st, h, limit);
      var r := Eval(args[0], sc, st, h, limit);
      if r.out.Ok? {
        ArgsAreCalm(args[1..], sc, r.st, h, limit);
      }
    }
  }

  lemma LiteralIsItself(e: Expr, sc: Scope, st: Store, h: Host, limit: u64)
    ensures var r := Eval(e, sc, st, h, limit); e.Literal? && r.out.Ok? ==> r.out.value == e.value
  {
    hide Spend;
    if e.Literal? {
      assert Form(e, sc.(depth := sc.depth + 1), Spend(st, BASE, limit).st, h, limit).out == Ok(e.value);
    }
  }

  lemma {:induction false} LetIsCalm(bindings: seq<Binding>, body: Expr, sc: Scope, st: Store, h: Host, limit: u64)
    requires BindingsSafe(bindings) && Safe(body) && SafeStore(st)
    ensures Calm(LetIn(bindings, body, sc, st, h, limit))
    decreases Rank(sc), 1, |bindings|
  {
    hide Eval, Safe, SafeStore;
    if bindings == [] {
      EvalIsCalm(body, sc, st, h, limit);
    } else {
      EvalIsCalm(bindings[0].val, sc, st, h, limit);
      var r := Eval(bindings[0].val, sc, st, h, limit);
      if r.out.Ok? {
        LetIsCalm(bindings[1..], body, sc.(env := sc.env[bindings[0].name := r.out.value]), r.st, h, limit);
      }
    }
  }

  lemma {:induction false} DefinitionsAreCalm(defs: seq<Expr>, sc: Scope, st: Store, h: Host, limit: u64)
    requires AllSafe(defs) && SafeStore(st)
    ensures Calm(Definitions(defs, sc, st, h, limit))
    decreases Rank(sc), 1, |defs|
  {
    hide Eval, Safe, SafeStore;
    if defs != [] {
      EvalIsCalm(defs[0], sc, st, h, limit);
      var r := Eval(defs[0], sc, st, h, limit);
      if r.out.Ok? {
        DefinitionsAreCalm(defs[1..], sc, r.st, h, limit);
      }
    }
  }

  lemma {:induction false} ModuleIsCalm(m: PactModule, sc: Scope, st: Store, h: Host, limit: u64)
    requires AllSafe(m.definitions) && SafeStore(st)
    ensures Calm(LoadModule(m, sc, st, h, limit))
    decreases Rank(sc), 2, 0
  {
    hide Definitions, AllSafe, SafeStore;
    var st1 := st.(currentModule := Some(m.name));
    SameDefinitions(st, st1);
    DefinitionsAreCalm(m.definitions, sc, st1, h, limit);
    var r := Definitions(m.definitions, sc, st1, h, limit);
    SameDefinitions(r.st, r.st.(modules := r.st.modules[m.name := m], currentModule := None));
  }

  lemma {:induction false} RequireIsCalm(cap: string, args: seq<Expr>, sc: Scope, st: Store, h: Host, limit: u64)
    requires AllSafe(args) && SafeStore(st)
    ensures Calm(RequireCap(cap, args, sc, st, h, limit))
    decreases Rank(sc), 2, 0
  {
    hide Args, AllSafe, SafeStore;
    ArgsAreCalm(args, sc, st, h, limit);
  }

  lemma {:induction false} EnforceIsCalm(cond: Expr, msg: string, sc: Scope, st: Store, h: Host, limit: u64)
    requires Safe(cond) && SafeStore(st)
    ensures Calm(EnforceThat(cond, msg, sc, st, h, limit))
    decreases Rank(sc), 1, 0
  {
    hide Eval, Safe, SafeStore;
    EvalIsCalm(cond, sc, st, h, limit);
  }

  lemma {:induction false} EnforceGuardIsCalm(guard: Expr, sc: Scope, st: Store, h: Host, limit: u64)
    requires Safe(guard) && SafeStore(st)
    ensures Calm(EnforceGuardOf(guard, sc, st, h, limit))
    decreases Rank(sc), 1, 0
  {
    hide Eval, Safe, SafeStore;
    EvalIsCalm(guard, sc, st, h, limit);
  }

  lemma {:induction false} AcquireIsCalm(key: Cap, sc: Scope, st: Store, h: Host, limit: u64)
    requires SafeStore(st)
    ensures Calm(Acquire(key, sc, st, h, limit))
    decreases Rank(sc), 1, 0
  {
    hide Eval, Safe, Bind;
    if key !in st.granted && key.0 in st.capabilities {
      var def := st.capabilities[key.0];
      EvalIsCalm(def.body, sc.(env := Bind(sc.env, def.params, key.1)), st, h, limit);
    }
  }

  lemma {:induction false} WithCapIsCalm(cap: string, args: seq<Expr>, body: Expr, sc: Scope, st: Store, h: Host,
                                         limit: u64)
    requires AllSafe(args) && Safe(body) && SafeStore(st)
    ensures Calm(WithCap(cap, args, body, sc, st, h, limit))
    decreases Rank(sc), 3, 0
  {
    hide Eval, Args, Acquire, Safe, AllSafe, SafeStore;
    ArgsAreCalm(args, sc, st, h, limit);
    var r := Args(args, sc, st, h, limit);
    if r.out.Ok? {
      var key := (cap, r.out.value);
      AcquireIsCalm(key, sc, r.st, h, limit);
      var g := Acquire(key, sc, r.st, h, limit);
      if g.out.Ok? {
        EvalIsCalm(body, sc.(caps := sc.caps + [key]), g.st, h, limit);
      }
    }
  }

  lemma {:induction false} ReadIsCalm(table: string, key: Expr, sc: Scope, st: Store, h: Host, limit: u64)
    requires Safe(key) && SafeStore(st)
    ensures Calm(ReadRow(table, key, sc, st, h, limit))
    decreases Rank(sc), 1, 0
  {
    hide Eval, Spend, Safe, SafeStore;
    SpendIsCalm(st, SLOAD, limit);
    var paid := Spend(st, SLOAD, limit);
    if paid.out.Ok? {
      EvalIsCalm(key, sc, paid.st, h, limit);
    }
  }

  lemma {:induction false} WriteIsCalm(table: string, key: Expr, row: Expr, sc: Scope, st: Store, h: Host, limit: u64)
    requires Safe(key) && Safe(row) && SafeStore(st)
    ensures Calm(WriteRow(table, key, row, sc, st, h, limit))
    decreases Rank(sc), 2, 0
  {
    hide StoreRow, Spend, Safe, SafeStore;
    SpendIsCalm(st, SSTORE_SET, limit);
    var paid := Spend(st, SSTORE_SET, limit);
    if paid.out.Ok? {
      StoreRowIsCalm(table, key, row, sc, paid.st, h, limit);
    }
  }

  lemma {:induction false} StoreRowIsCalm(table: string, key: Expr, row: Expr, sc: Scope, st: Store, h: Host,
                                          limit: u64)
    requires Safe(key) && Safe(row) && SafeStore(st)
    ensures Calm(StoreRow(table, key, row, sc, st, h, limit))
    decreases Rank(sc), 1, 1
  {
    hide Eval, StoreUnder, Safe, SafeStore;
    EvalIsCalm(key, sc, st, h, limit);
    var r := Eval(key, sc, st, h, limit);
    if r.out.Ok? && r.out.value.Str? {
      StoreUnderIsCalm(table, r.out.value.s, row, sc, r.st, h, limit);
    }
  }

  lemma {:induction false} StoreUnderIsCalm(table: string, key: string, row: Expr, sc: Scope, st: Store, h: Host,
                                            limit: u64)
    requires Safe(row) && SafeStore(st)
    ensures Calm(StoreUnder(table, key, row, sc, st, h, limit))
    decreases Rank(sc), 1, 0
  {
    hide Eval, PutRow, Safe, SafeStore;
    EvalIsCalm(row, sc, st, h, limit);
    var v := Eval(row, sc, st, h, limit);
    if v.out.Ok? {
      PutRowIsCalm(table, key, v.out.value, v.st);
    }
  }

  lemma PutRowIsCalm(table: string, key: string, row: Value, st: Store)
    requires SafeStore(st)
    ensures Calm(PutRow(table, key, row, st))
  {
    hide SafeStore;
    SameDefinitions(st, PutRow(table, key, row, st).st);
  }

  lemma BuiltinKeepsDefinitions(op: string, args: seq<Value>, st: Store, h: Host, limit: u64)
    requires IsPure(op) || op in EFFECTFUL
    ensures var st1 := Builtin(op, args, st, h, limit).st;
            st1.functions == st.functions && st1.capabilities == st.capabilities
  {
    hide Pure, DefineKeyset, HashOf, IsPure;
    HashKeepsDefinitions(args, st, h, limit);
  }

  lemma HashKeepsDefinitions(args: seq<Value>, st: Store, h: Host, limit: u64)
    ensures var st1 := HashOf(args, st, h, limit).st;
            st1.functions == st.functions && st1.capabilities == st.capabilities
  {
    hide Spend, Words, Utf8Length;
    SpendKeepsDefinitions(st, SHA3_BASE, limit);
    if args != [] {
      var length := if args[0].Str? then Utf8Length(args[0].s) else h.byteLength(args[0]);
      SpendKeepsDefinitions(Spend(st, SHA3_BASE, limit).st, SHA3_WORD * Words(length), limit);
    }
  }

  lemma SpendKeepsDefinitions(st: Store, amount: nat, limit: u64)
    ensures var st1 := Spend(st, amount, limit).st;
            st1.functions == st.functions && st1.capabilities == st.capabilities
  {
  }

  lemma {:induction false} ApplicationIsCalm(func: Expr, args: seq<Expr>, sc: Scope, st: Store, h: Host, limit: u64)
    requires Safe(App(func, args)) && SafeStore(st)
    ensures Calm(Application(func, args, sc, st, h, limit))
    decreases Rank(sc), 3, 0
  {
    hide Eval, Args, Call, Builtin, IsPure, AllSafe, Enough, SafeStore;
    if !func.Symbol? {
      EvalIsCalm(func, sc, st, h, limit);
    } else {
      ArgsAreCalm(args, sc, st, h, limit);
      var r := Args(args, sc, st, h, limit);
      if r.out.Ok? {
        if IsPure(func.symbol) || func.symbol in EFFECTFUL {
          BuiltinIsCalm(func.symbol, args, r.out.value, r.st, h, limit);
        } else if func.symbol in r.st.functions {
          CallIsCalm(func.symbol, r.out.value, sc, r.st, h, limit);
        }
      }
    }
  }

  lemma BuiltinIsCalm(op: string, args: seq<Expr>, vals: seq<Value>, st: Store, h: Host, limit: u64)
    requires (IsPure(op) || op in EFFECTFUL) && Enough(op, args) && SafeStore(st) && |vals| == |args|
    requires forall i :: 0 <= i < |args| && args[i].Literal? ==> vals[i] == args[i].value
    ensures Calm(Builtin(op, vals, st, h, limit))
  {
    hide Builtin, Needs, IsPure, SafeStore;
    BuiltinPanicsIff(op, vals, st, h, limit);
    BuiltinKeepsDefinitions(op, vals, st, h, limit);
    SameDefinitions(st, Builtin(op, vals, st, h, limit).st);
  }

  lemma {:induction false} CallIsCalm(name: string, vals: seq<Value>, sc: Scope, st: Store, h: Host, limit: u64)
    requires SafeStore(st) && name in st.functions
    ensures Calm(Call(st.functions[name], vals, sc, st, h, limit))
    decreases Rank(sc), 1, 0
  {
    hide Eval, Safe, Bind;
    var f := st.functions[name];
    if |vals| == |f.params| {
      EvalIsCalm(f.body, sc.(env := Bind(sc.env, f.params, vals)), st, h, limit);
    }
  }

  // Safe programs never panic, in whatever safe state they start, and define nothing that is not safe.
  lemma {:induction false} SafeProgramsNeverPanic(es: seq<Expr>, last: Value, st: Store, h: Host, limit: u64)
    requires AllSafe(es) && SafeStore(st)
    ensures Calm(Program(es, last, st, h, limit))
    decreases |es|
  {
    hide Eval, Safe, SafeStore;
    if es != [] {
      EvalIsCalm(es[0], TOP_LEVEL, st, h, limit);
      var r := Eval(es[0], TOP_LEVEL, st, h, limit);
      if r.out.Ok? {
        SafeProgramsNeverPanic(es[1..], r.out.value, r.st, h, limit);
      }
    }
  }

  // ---------- Texts ----------

  // An annotation of a function that no parenthesis closes makes the parser panic, and only such a one.
  lemma OpenAnnotationPanics(rest: string)
    requires '@' !in rest
    ensures PactGrammar.AllExprs("(defun f @" + rest, 0).Panic? <==> ')' !in rest
  {
    var s := "(defun f @" + rest;
    assert s[9] == '@' && forall i :: 10 <= i < |s| ==> s[i] == rest[i - 10];
    if ')' in rest {
      var k :| 0 <= k < |rest| && rest[k] == ')';
      assert s[10 + k] == ')';
      assert !PactGrammar.OpenNote(s);
    } else {
      OpenDefun(s);
    }
  }

  lemma OpenDefun(s: string)
    requires |s| >= 10 && s[..10] == "(defun f @" && forall i :: 10 <= i < |s| ==> s[i] != ')'
    ensures PactGrammar.AllExprs(s, 0) == PactGrammar.Parsed.Panic
  {
    hide PactGrammar.ExprAt, PactGrammar.SpecialAt, PactGrammar.DefunAt, PactGrammar.Skip;
    KeywordOfDefun(s);
    OpenDefunAt(s);
    DefunIsSpecial(s, 6);
  }

  lemma KeywordOfDefun(s: string)
    requires |s| >= 10 && s[..10] == "(defun f @"
    ensures PactGrammar.Skip(s, 0) == 0 && PactGrammar.ExprAt(s, 0) == PactGrammar.SpecialAt("defun", s, 6)
  {
    hide PactGrammar.ExprAt, PactGrammar.SpecialAt, PactGrammar.Skip, PactGrammar.KEYWORDS, PactPrinter.GoodSymbol,
      PactPrinter.At;
    DefunIsKeyword();
    StartsWithDefun(s);
    PactPrinter.SkipStops(s, 0);
    PactPrinter.ReadKeyword("defun", s, 0);
  }

  lemma DefunIsKeyword()
    ensures PactPrinter.GoodSymbol("defun") && "defun" in PactGrammar.KEYWORDS
  {
    hide PactGrammar.KEYWORDS, PactPrinter.GoodSymbol;
    var e := Defun("f", [], Literal(Unit), None);
    PactPrinter.KeywordsAreSymbols(e);
    PactPrinter.KeywordsAreKnown(e);
  }

  lemma StartsWithDefun(s: string)
    requires |s| >= 10 && s[..10] == "(defun f @"
    ensures PactPrinter.At(s, 0, "(" + "defun") && s[0] == '(' && PactPrinter.Delimited(s, 6)
  {
    assert s[0..6] == s[..10][0..6] == "(defun" == "(" + "defun";
    assert s[0] == s[..10][0] && s[6] == s[..10][6];
  }

  lemma DefunIsSpecial(s: string, p: nat)
    requires p <= |s|
    ensures PactGrammar.SpecialAt("defun", s, p) == PactGrammar.DefunAt(s, p)
  {
    hide PactGrammar.DefunAt;
  }

  lemma OpenDefunAt(s: string)
    requires |s| >= 10 && s[..10] == "(defun f @" && forall i :: 10 <= i < |s| ==> s[i] != ')'
    ensures PactGrammar.DefunAt(s, 6).Panic?
  {
    hide PactGrammar.Params, PactGrammar.LastExpr, PactGrammar.StringAt;
    assert forall i :: 6 <= i < 10 ==> s[i] == s[..10][i];
    assert s[6] == ' ' && s[7] == 'f' && s[8] == ' ' && s[9] == '@';
    assert PactGrammar.Skip(s, 7) == 7 && PactGrammar.Skip(s, 6) == 7;
    assert PactGrammar.Skip(s, 9) == 9 && PactGrammar.Skip(s, 8) == 9;
    assert PactGrammar.NameEnd(s, 8) == 8 && PactGrammar.NameEnd(s, 7) == 8;
    assert PactGrammar.Name(s, 7) == PactGrammar.Got(s[7..8], 8);
    assert PactGrammar.DocAt(s, 9) == PactGrammar.Got(None, 9);
    assert PactGrammar.Find(s, 9, ')') == |s|;
  }

  // A builtin without the argument it takes panics as soon as the application is paid for.
  lemma AbsOfNothingPanics(h: Host, limit: u64)
    ensures Eval(App(Symbol("abs"), []), TOP_LEVEL, EMPTY_STORE, h, limit).out.Panic? <==> limit >= BASE
  {
    hide Spend;
    var e, sc := App(Symbol("abs"), []), TOP_LEVEL.(depth := 1);
    var paid := Spend(EMPTY_STORE, BASE, limit);
    FirstSpend(limit);
    assert Args([], sc, paid.st, h, limit) == Res(Ok([]), paid.st);
    assert Form(e, sc, paid.st, h, limit) == Application(Symbol("abs"), [], sc, paid.st, h, limit);
    BuiltinPanicsIff("abs", [], paid.st, h, limit);
  }

  lemma FirstSpend(limit: u64)
    ensures Spend(EMPTY_STORE, BASE, limit).out.Ok? <==> limit >= BASE
  {
  }

  // The text has no open annotation, and if it parses, to a safe program.
  predicate SafeText(text: string) {
    && !PactGrammar.OpenNote(text)
    && (PactGrammar.AllExprs(text, 0).Got? ==> AllSafe(PactGrammar.AllExprs(text, 0).value))
  }

  predicate Quiet(r: Ran) {
    (r.finish.Finished? ==> !r.finish.out.Panic?) && SafeStore(r.st)
  }

  lemma SafeTextRuns(text: string, last: Value, st: Store, h: Host, limit: u64)
    requires SafeText(text) && SafeStore(st)
    ensures Quiet(RunText(text, last, st, h, limit))
  {
    hide Program, AllSafe, SafeStore, PactGrammar.AllExprs, PactGrammar.OpenNote;
    var parsed := PactGrammar.AllExprs(text, 0);
    if parsed.Got? {
      SafeProgramsNeverPanic(parsed.value, last, st, h, limit);
    }
  }

  // So no execution of safe texts panics.
  lemma SafeTextsNeverPanic(code: string, callData: Option<string>, h: Host, limit: u64)
    requires SafeText(code) && (callData.Some? ==> SafeText(callData.value))
    ensures Quiet(ParseAndExecute(code, callData, EMPTY_STORE, h, limit))
  {
    hide RunText, SafeText;
    assert SafeStore(EMPTY_STORE);
    SafeTextRuns(code, Unit, EMPTY_STORE, h, limit);
    var r := RunText(code, Unit, EMPTY_STORE, h, limit);
    if callData.Some? && Succeeds(r) {
      SafeTextRuns(callData.value, r.finish.out.value, r.st, h, limit);
    }
  }
}
