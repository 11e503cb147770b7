/** Properties of every Pact evaluation: gas monotonicity, capability scope, recursion depth. */
module PactProperties {
  import opened Ints
  import opened Wrappers
  import opened Gas
  import opened PactSyntax
  import opened PactText
  import opened PactSemantics

  // ---------- Gas ----------

  // The outcome under a low limit against the outcome under a higher one: the same if the higher run
  // stays within the low limit, and otherwise starved with exactly the low limit used.
  ghost predicate Agree<T>(r1: Res<T>, r2: Res<T>, low: u64) {
    if r2.st.used <= low then r1 == r2 else Starved(r1.out) && r1.st.used == low
  }

  // Out of gas, or not granted because the capability's body ran out of gas.
  ghost predicate Starved<T>(out: Outcome<T>) {
    out.Err? && (out.error.OutOfGas? || out.error.CapNotGranted?)
  }

  // Evaluation never gives gas back and stays within the limit; limits agree in the sense above.
  ghost predicate Metered<T>(st: Store, r1: Res<T>, r2: Res<T>, low: u64, high: u64) {
    && st.used <= r2.st.used <= high
    && (st.used <= low ==> Agree(r1, r2, low))
  }

  lemma SpendMetered(st: Store, amount: nat, low: u64, high: u64)
    requires low <= high && st.used <= high
    ensures Metered(st, Spend(st, amount, low), Spend(st, amount, high), low, high)
  {
  }

  lemma BuiltinMetered(op: string, args: seq<Value>, st: Store, h: Host, low: u64, high: u64)
    requires IsPure(op) || op in EFFECTFUL
    requires low <= high && st.used <= high
    ensures Metered(st, Builtin(op, args, st, h, low), Builtin(op, args, st, h, high), low, high)
  {
    hide Pure, IsPure, DefineKeyset, HashOf;
    HashMetered(args, st, h, low, high);
  }

  lemma HashMetered(args: seq<Value>, st: Store, h: Host, low: u64, high: u64)
    requires low <= high && st.used <= high
    ensures Metered(st, HashOf(args, st, h, low), HashOf(args, st, h, high), low, high)
  {
    hide Spend, Words, Utf8Length;
    SpendMetered(st, SHA3_BASE, low, high);
    var paid := Spend(st, SHA3_BASE, high);
    if paid.out.Ok? && args != [] {
      var length := if args[0].Str? then Utf8Length(args[0].s) else h.byteLength(args[0]);
      SpendMetered(paid.st, SHA3_WORD * Words(length), low, high);
    }
  }

  lemma {:induction false} EvalMetered(e: Expr, sc: Scope, st: Store, h: Host, low: u64, high: u64)
    requires low <= high && st.used <= high
    ensures Metered(st, Eval(e, sc, st, h, low), Eval(e, sc, st, h, high), low, high)
    decreases Rank(sc), 0, 0
  {
    hide Eval, Form, Spend;
    EvalPaysFirst(e, sc, st, h, low);
    EvalPaysFirst(e, sc, st, h, high);
    if sc.depth + 1 <= MAX_RECURSION_DEPTH {
      SpendMetered(st, BASE, low, high);
      var paid := Spend(st, BASE, high);
      if paid.out.Ok? {
        FormMetered(e, sc.(depth := sc.depth + 1), paid.st, h, low, high);
      }
    }
  }

  lemma EvalPaysFirst(e: Expr, sc: Scope, st: Store, h: Host, limit: u64)
    ensures var paid := Spend(st, BASE, limit);
            Eval(e, sc, st, h, limit) ==
            if sc.depth + 1 > MAX_RECURSION_DEPTH then Res(Err(DepthExceeded), st)
            else if !paid.out.Ok? then Res(Err(OutOfGas), paid.st)
            else Form(e, sc.(depth := sc.depth + 1), paid.st, h, limit)
  {
    hide Form, Spend;
  }

  lemma {:induction false} FormMetered(e: Expr, sc: Scope, st: Store, h: Host, low: u64, high: u64)
    requires low <= high && st.used <= high
    ensures Metered(st, Form(e, sc, st, h, low), Form(e, sc, st, h, high), low, high)
    decreases Rank(sc), 4, 0
  {
    hide Eval, Args, LetIn, WithCap, LoadModule, Application, ReadRow, WriteRow, Conditional, RequireCap, EnforceThat,
      EnforceGuardOf, Metered;
    match e
    case App(func, args) => ApplicationMetered(func, args, sc, st, h, low, high);
    case Let(bindings, body) => LetMetered(bindings, body, sc, st, h, low, high);
    case If(cond, thn, els) => ConditionalMetered(cond, thn, els, sc, st, h, low, high);
    case Module(m) => ModuleMetered(m, sc, st, h, low, high);
    case WithCapability(cap, args, body) => WithCapMetered(cap, args, body, sc, st, h, low, high);
    case RequireCapability(cap, args) => RequireMetered(cap, args, sc, st, h, low, high);
    case Read(table, key) => ReadMetered(table, key, sc, st, h, low, high);
    case Write(_, table, key, row) => WriteMetered(table, key, row, sc, st, h, low, high);
    case Enforce(cond, msg) => EnforceMetered(cond, msg, sc, st, h, low, high);
    case EnforceGuard(guard) => EnforceGuardMetered(guard, sc, st, h, low, high);
    case _ => OutcomeIsFree(Form(e, sc, st, h, high), st, low, high);
  }

  lemma OutcomeIsFree(r: Res<Value>, st: Store, low: u64, high: u64)
    requires r.st.used == st.used <= high
    ensures Metered(st, r, r, low, high)
  {
  }

  lemma {:induction false} RequireMetered(cap: string, args: seq<Expr>, sc: Scope, st: Store, h: Host, low: u64,
                                          high: u64)
    requires low <= high && st.used <= high
    ensures Metered(st, RequireCap(cap, args, sc, st, h, low), RequireCap(cap, args, sc, st, h, high), low, high)
    decreases Rank(sc), 2, 0
  {
    hide Args;
    ArgsMetered(args, sc, st, h, low, high);
  }

  lemma {:induction false} EnforceMetered(cond: Expr, msg: string, sc: Scope, st: Store, h: Host, low: u64, high: u64)
    requires low <= high && st.used <= high
    ensures Metered(st, EnforceThat(cond, msg, sc, st, h, low), EnforceThat(cond, msg, sc, st, h, high), low, high)
    decreases Rank(sc), 1, 0
  {
    hide Eval, ToBool;
    EvalMetered(cond, sc, st, h, low, high);
  }

  lemma {:induction false} EnforceGuardMetered(guard: Expr, sc: Scope, st: Store, h: Host, low: u64, high: u64)
    requires low <= high && st.used <= high
    ensures Metered(st, EnforceGuardOf(guard, sc, st, h, low), EnforceGuardOf(guard, sc, st, h, high), low, high)
    decreases Rank(sc), 1, 0
  {
    hide Eval, CheckGuard;
    EvalMetered(guard, sc, st, h, low, high);
  }

  lemma {:induction false} ConditionalMetered(cond: Expr, thn: Expr, els: Expr, sc: Scope, st: Store, h: Host, low: u64,
                                              high: u64)
    requires low <= high && st.used <= high
    ensures Metered(st, Conditional(cond, thn, els, sc, st, h, low), Conditional(cond, thn, els, sc, st, h, high), low,
                    high)
    decreases Rank(sc), 1, 0
  {
    hide Eval;
    EvalMetered(cond, sc, st, h, low, high);
    var r := Eval(cond, sc, st, h, high);
    if r.out.Ok? {
      EvalMetered(if ToBool(r.out.value) then thn else els, sc, r.st, h, low, high);
    }
  }

  lemma {:induction false} ArgsMetered(args: seq<Expr>, sc: Scope, st: Store, h: Host, low: u64, high: u64)
    requires low <= high && st.used <= high
    ensures Metered(st, Args(args, sc, st, h, low), Args(args, sc, st, h, high), low, high)
    decreases Rank(sc), 1, |args|
  {
    hide Eval;
    if args != [] {
      EvalMetered(args[0], sc, st, h, low, high);
      var r := Eval(args[0], sc, st, h, high);
      if r.out.Ok? {
        ArgsMetered(args[1..], sc, r.st, h, low, high);
      }
    }
  }

  lemma {:induction false} LetMetered(bindings: seq<Binding>, body: Expr, sc: Scope, st: Store, h: Host, low: u64,
                                      high: u64)
    requires low <= high && st.used <= high
    ensures Metered(st, LetIn(bindings, body, sc, st, h, low), LetIn(bindings, body, sc, st, h, high), low, high)
    decreases Rank(sc), 1, |bindings|
  {
    hide Eval;
    if bindings == [] {
      EvalMetered(body, sc, st, h, low, high);
    } else {
      EvalMetered(bindings[0].val, sc, st, h, low, high);
      var r := Eval(bindings[0].val, sc, st, h, high);
      if r.out.Ok? {
        LetMetered(bindings[1..], body, sc.(env := sc.env[bindings[0].name := r.out.value]), r.st, h, low, high);
      }
    }
  }

  lemma {:induction false} DefinitionsMetered(defs: seq<Expr>, sc: Scope, st: Store, h: Host, low: u64, high: u64)
    requires low <= high && st.used <= high
    ensures Metered(st, Definitions(defs, sc, st, h, low), Definitions(defs, sc, st, h, high), low, high)
    decreases Rank(sc), 1, |defs|
  {
    hide Eval;
    if defs != [] {
      EvalMetered(defs[0], sc, st, h, low, high);
      var r := Eval(defs[0], sc, st, h, high);
      if r.out.Ok? {
        DefinitionsMetered(defs[1..], sc, r.st, h, low, high);
      }
    }
  }

  lemma {:induction false} ModuleMetered(m: PactModule, sc: Scope, st: Store, h: Host, low: u64, high: u64)
    requires low <= high && st.used <= high
    ensures Metered(st, LoadModule(m, sc, st, h, low), LoadModule(m, sc, st, h, high), low, high)
    decreases Rank(sc), 2, 0
  {
    hide Definitions;
    DefinitionsMetered(m.definitions, sc, st.(currentModule := Some(m.name)), h, low, high);
  }

  lemma {:induction false} AcquireMetered(key: Cap, sc: Scope, st: Store, h: Host, low: u64, high: u64)
    requires low <= high && st.used <= high
    ensures Metered(st, Acquire(key, sc, st, h, low), Acquire(key, sc, st, h, high), low, high)
    decreases Rank(sc), 1, 0
  {
    hide Eval;
    if key !in st.granted && key.0 in st.capabilities {
      var def := st.capabilities[key.0];
      EvalMetered(def.body, sc.(env := Bind(sc.env, def.params, key.1)), st, h, low, high);
    }
  }

  lemma {:induction false} WithCapMetered(cap: string, args: seq<Expr>, body: Expr, sc: Scope, st: Store, h: Host,
                                          low: u64, high: u64)
    requires low <= high && st.used <= high
    ensures Metered(st, WithCap(cap, args, body, sc, st, h, low), WithCap(cap, args, body, sc, st, h, high), low, high)
    decreases Rank(sc), 3, 0
  {
    hide Eval, Args, Acquire;
    ArgsMetered(args, sc, st, h, low, high);
    var r := Args(args, sc, st, h, high);
    if r.out.Ok? {
      var key := (cap, r.out.value);
      AcquireMetered(key, sc, r.st, h, low, high);
      var g := Acquire(key, sc, r.st, h, high);
      if g.out.Ok? {
        EvalMetered(body, sc.(caps := sc.caps + [key]), g.st, h, low, high);
      }
    }
  }

  lemma {:induction false} ReadMetered(table: string, key: Expr, sc: Scope, st: Store, h: Host, low: u64, high: u64)
    requires low <= high && st.used <= high
    ensures Metered(st, ReadRow(table, key, sc, st, h, low), ReadRow(table, key, sc, st, h, high), low, high)
    decreases Rank(sc), 1, 0
  {
    hide Eval, FindRow, Spend;
    SpendMetered(st, SLOAD, low, high);
    var paid := Spend(st, SLOAD, high);
    if paid.out.Ok? {
      EvalMetered(key, sc, paid.st, h, low, high);
    }
  }

  lemma {:induction false} WriteMetered(table: string, key: Expr, row: Expr, sc: Scope, st: Store, h: Host, low: u64,
                                        high: u64)
    requires low <= high && st.used <= high
    ensures Metered(st, WriteRow(table, key, row, sc, st, h, low), WriteRow(table, key, row, sc, st, h, high), low,
                    high)
    decreases Rank(sc), 2, 0
  {
    hide Eval, Spend, StoreRow;
    SpendMetered(st, SSTORE_SET, low, high);
    var paid := Spend(st, SSTORE_SET, high);
    if paid.out.Ok? {
      StoreRowMetered(table, key, row, sc, paid.st, h, low, high);
    }
  }

  lemma {:induction false} StoreRowMetered(table: string, key: Expr, row: Expr, sc: Scope, st: Store, h: Host, low: u64,
                                           high: u64)
    requires low <= high && st.used <= high
    ensures Metered(st, StoreRow(table, key, row, sc, st, h, low), StoreRow(table, key, row, sc, st, h, high), low,
                    high)
    decreases Rank(sc), 1, 1
  {
    hide Eval, StoreUnder;
    EvalMetered(key, sc, st, h, low, high);
    var r := Eval(key, sc, st, h, high);
    if r.out.Ok? && r.out.value.Str? {
      StoreUnderMetered(table, r.out.value.s, row, sc, r.st, h, low, high);
    }
  }

  lemma {:induction false} StoreUnderMetered(table: string, key: string, row: Expr, sc: Scope, st: Store, h: Host,
                                             low: u64, high: u64)
    requires low <= high && st.used <= high
    ensures Metered(st, StoreUnder(table, key, row, sc, st, h, low), StoreUnder(table, key, row, sc, st, h, high), low,
                    high)
    decreases Rank(sc), 1, 0
  {
    hide Eval, PutRow;
    EvalMetered(row, sc, st, h, low, high);
    var v := Eval(row, sc, st, h, high);
    if v.out.Ok? {
      PutRowIsFree(table, key, v.out.value, v.st);
    }
  }

  lemma PutRowIsFree(table: string, key: string, row: Value, st: Store)
    ensures PutRow(table, key, row, st).st.used == st.used
  {
  }

  lemma {:induction false} ApplicationMetered(func: Expr, args: seq<Expr>, sc: Scope, st: Store, h: Host, low: u64,
                                              high: u64)
    requires low <= high && st.used <= high
    ensures Metered(st, Application(func, args, sc, st, h, low), Application(func, args, sc, st, h, high), low, high)
    decreases Rank(sc), 3, 0
  {
    hide Eval, Args, Builtin, IsPure;
    if !func.Symbol? {
      EvalMetered(func, sc, st, h, low, high);
    } else {
      ArgsMetered(args, sc, st, h, low, high);
      var r := Args(args, sc, st, h, high);
      if r.out.Ok? {
        if IsPure(func.symbol) || func.symbol in EFFECTFUL {
          BuiltinMetered(func.symbol, r.out.value, r.st, h, low, high);
        } else if func.symbol in r.st.functions {
          var f := r.st.functions[func.symbol];
          if |r.out.value| == |f.params| {
            EvalMetered(f.body, sc.(env := Bind(sc.env, f.params, r.out.value)), r.st, h, low, high);
          }
        }
      }
    }
  }

  lemma {:induction false} ProgramMetered(es: seq<Expr>, last: Value, st: Store, h: Host, low: u64, high: u64)
    requires low <= high && st.used <= high
    ensures Metered(st, Program(es, last, st, h, low), Program(es, last, st, h, high), low, high)
    decreases |es|
  {
    hide Eval;
    if es != [] {
      EvalMetered(es[0], TOP_LEVEL, st, h, low, high);
      var r := Eval(es[0], TOP_LEVEL, st, h, high);
      if r.out.Ok? {
        ProgramMetered(es[1..], r.out.value, r.st, h, low, high);
      }
    }
  }

  // A program that completes with G gas gives the same value and the same store under every limit from
  // G on, and under every limit below G is starved with exactly that limit used.
  lemma PactGasMonotone(es: seq<Expr>, h: Host, limit: u64, other: u64)
    requires Program(es, Unit, EMPTY_STORE, h, limit).out.Ok?
    ensures var r, s := Program(es, Unit, EMPTY_STORE, h, limit), Program(es, Unit, EMPTY_STORE, h, other);
            if r.st.used <= other then s == r else Starved(s.out) && s.st.used == other
  {
    hide Program;
    ProgramMetered(es, Unit, EMPTY_STORE, h, Min(limit, other), Max(limit, other));
    ProgramMetered(es, Unit, EMPTY_STORE, h, limit, limit);
  }

  // ---------- Capability scope and depth ----------

  // The same bindings, at least the same capability frames (in any order), and no deeper nesting.
  ghost predicate Wider(sc: Scope, wide: Scope) {
    && wide.env == sc.env
    && (forall c :: c in sc.caps ==> c in wide.caps)
    && wide.depth <= sc.depth
  }

  lemma WiderWith(sc: Scope, wide: Scope, env: Env, key: Cap)
    requires Wider(sc, wide)
    ensures Wider(sc.(env := env), wide.(env := env))
    ensures Wider(sc.(caps := sc.caps + [key]), wide.(caps := wide.caps + [key]))
    ensures Wider(sc.(depth := sc.depth + 1), wide.(depth := wide.depth + 1))
  {
  }

  lemma GuardWidens(v: Value, sc: Scope, wide: Scope, keysets: Keysets, h: Host)
    requires Wider(sc, wide) && CheckGuard(v, sc.caps, keysets, h).Ok?
    ensures CheckGuard(v, wide.caps, keysets, h) == CheckGuard(v, sc.caps, keysets, h)
  {
  }

  // What evaluates to a value does so unchanged inside more capability frames and at a smaller depth: no
  // form can observe that a capability is absent other than by failing.

  lemma {:induction false} EvalWidens(e: Expr, sc: Scope, wide: Scope, st: Store, h: Host, limit: u64)
    requires Wider(sc, wide) && Eval(e, sc, st, h, limit).out.Ok?
    ensures Eval(e, wide, st, h, limit) == Eval(e, sc, st, h, limit)
    decreases Rank(sc), 0, 0
  {
    hide Form, Spend;
    WiderWith(sc, wide, sc.env, ("", []));
    var paid := Spend(st, BASE, limit);
    FormWidens(e, sc.(depth := sc.depth + 1), wide.(depth := wide.depth + 1), paid.st, h, limit);
  }

  lemma {:induction false} FormWidens(e: Expr, sc: Scope, wide: Scope, st: Store, h: Host, limit: u64)
    requires Wider(sc, wide) && Form(e, sc, st, h, limit).out.Ok?
    ensures Form(e, wide, st, h, limit) == Form(e, sc, st, h, limit)
    decreases Rank(sc), 4, 0
  {
    assert wide.env == sc.env;
    hide Eval, Args, LetIn, WithCap, LoadModule, Application, ReadRow, WriteRow, Conditional, RequireCap, EnforceThat,
      EnforceGuardOf, Wider;
    match e
    case App(func, args) => ApplicationWidens(func, args, sc, wide, st, h, limit);
    case Let(bindings, body) => LetWidens(bindings, body, sc, wide, st, h, limit);
    case If(cond, thn, els) => ConditionalWidens(cond, thn, els, sc, wide, st, h, limit);
    case Module(m) => ModuleWidens(m, sc, wide, st, h, limit);
    case WithCapability(cap, args, body) => WithCapWidens(cap, args, body, sc, wide, st, h, limit);
    case RequireCapability(cap, args) => RequireWidens(cap, args, sc, wide, st, h, limit);
    case Read(table, key) => ReadWidens(table, key, sc, wide, st, h, limit);
    case Write(_, table, key, row) => WriteWidens(table, key, row, sc, wide, st, h, limit);
    case Enforce(cond, msg) => EnforceWidens(cond, msg, sc, wide, st, h, limit);
    case EnforceGuard(guard) => EnforceGuardWidens(guard, sc, wide, st, h, limit);
    case _ =>
  }

  lemma {:induction false} ConditionalWidens(cond: Expr, thn: Expr, els: Expr, sc: Scope, wide: Scope, st: Store,
                                             h: Host, limit: u64)
    requires Wider(sc, wide) && Conditional(cond, thn, els, sc, st, h, limit).out.Ok?
    ensures Conditional(cond, thn, els, wide, st, h, limit) == Conditional(cond, thn, els, sc, st, h, limit)
    decreases Rank(sc), 1, 0
  {
    hide Eval, Conditional, Wider;
    ConditionFirst(cond, thn, els, sc, st, h, limit);
    ConditionFirst(cond, thn, els, wide, st, h, limit);
    EvalWidens(cond, sc, wide, st, h, limit);
    var r := Eval(cond, sc, st, h, limit);
    EvalWidens(if ToBool(r.out.value) then thn else els, sc, wide, r.st, h, limit);
  }

  lemma ConditionFirst(cond: Expr, thn: Expr, els: Expr, sc: Scope, st: Store, h: Host, limit: u64)
    ensures var r := Eval(cond, sc, st, h, limit);
            Conditional(cond, thn, els, sc, st, h, limit) ==
            if r.out.Ok? then Eval(if ToBool(r.out.value) then thn else els, sc, r.st, h, limit) else r
  {
    hide Eval;
  }

  lemma {:induction false} ArgsWiden(args: seq<Expr>, sc: Scope, wide: Scope, st: Store, h: Host, limit: u64)
    requires Wider(sc, wide) && Args(args, sc, st, h, limit).out.Ok?
    ensures Args(args, wide, st, h, limit) == Args(args, sc, st, h, limit)
    decreases Rank(sc), 1, |args|
  {
    hide Eval, Wider;
    if args != [] {
      EvalWidens(args[0], sc, wide, st, h, limit);
      ArgsWiden(args[1..], sc, wide, Eval(args[0], sc, st, h, limit).st, h, limit);
    }
  }

  lemma {:induction false} LetWidens(bindings: seq<Binding>, body: Expr, sc: Scope, wide: Scope, st: Store, h: Host,
                                     limit: u64)
    requires Wider(sc, wide) && LetIn(bindings, body, sc, st, h, limit).out.Ok?
    ensures LetIn(bindings, body, wide, st, h, limit) == LetIn(bindings, body, sc, st, h, limit)
    decreases Rank(sc), 1, |bindings|
  {
    hide Eval;
    if bindings == [] {
      EvalWidens(body, sc, wide, st, h, limit);
    } else {
      EvalWidens(bindings[0].val, sc, wide, st, h, limit);
      var r := Eval(bindings[0].val, sc, st, h, limit);
      var env := sc.env[bindings[0].name := r.out.value];
      WiderWith(sc, wide, env, ("", []));
      LetWidens(bindings[1..], body, sc.(env := env), wide.(env := env), r.st, h, limit);
    }
  }

  lemma {:induction false} DefinitionsWiden(defs: seq<Expr>, sc: Scope, wide: Scope, st: Store, h: Host, limit: u64)
    requires Wider(sc, wide) && Definitions(defs, sc, st, h, limit).out.Ok?
    ensures Definitions(defs, wide, st, h, limit) == Definitions(defs, sc, st, h, limit)
    decreases Rank(sc), 1, |defs|
  {
    hide Eval, Wider;
    if defs != [] {
      EvalWidens(defs[0], sc, wide, st, h, limit);
      DefinitionsWiden(defs[1..], sc, wide, Eval(defs[0], sc, st, h, limit).st, h, limit);
    }
  }

  lemma {:induction false} ModuleWidens(m: PactModule, sc: Scope, wide: Scope, st: Store, h: Host, limit: u64)
    requires Wider(sc, wide) && LoadModule(m, sc, st, h, limit).out.Ok?
    ensures LoadModule(m, wide, st, h, limit) == LoadModule(m, sc, st, h, limit)
    decreases Rank(sc), 2, 0
  {
    hide Definitions, Wider;
    DefinitionsWiden(m.definitions, sc, wide, st.(currentModule := Some(m.name)), h, limit);
  }

  lemma {:induction false} RequireWidens(cap: string, args: seq<Expr>, sc: Scope, wide: Scope, st: Store, h: Host,
                                         limit: u64)
    requires Wider(sc, wide) && RequireCap(cap, args, sc, st, h, limit).out.Ok?
    ensures RequireCap(cap, args, wide, st, h, limit) == RequireCap(cap, args, sc, st, h, limit)
    decreases Rank(sc), 2, 0
  {
    hide Args;
    ArgsWiden(args, sc, wide, st, h, limit);
  }

  lemma {:induction false} EnforceWidens(cond: Expr, msg: string, sc: Scope, wide: Scope, st: Store, h: Host,
                                         limit: u64)
    requires Wider(sc, wide) && EnforceThat(cond, msg, sc, st, h, limit).out.Ok?
    ensures EnforceThat(cond, msg, wide, st, h, limit) == EnforceThat(cond, msg, sc, st, h, limit)
    decreases Rank(sc), 1, 0
  {
    hide Eval, Wider;
    EvalWidens(cond, sc, wide, st, h, limit);
  }

  lemma {:induction false} EnforceGuardWidens(guard: Expr, sc: Scope, wide: Scope, st: Store, h: Host, limit: u64)
    requires Wider(sc, wide) && EnforceGuardOf(guard, sc, st, h, limit).out.Ok?
    ensures EnforceGuardOf(guard, wide, st, h, limit) == EnforceGuardOf(guard, sc, st, h, limit)
    decreases Rank(sc), 1, 0
  {
    hide Eval, CheckGuard, Wider;
    EvalWidens(guard, sc, wide, st, h, limit);
    var r := Eval(guard, sc, st, h, limit);
    GuardWidens(r.out.value, sc, wide, r.st.keysets, h);
  }

  lemma {:induction false} AcquireWidens(key: Cap, sc: Scope, wide: Scope, st: Store, h: Host, limit: u64)
    requires Wider(sc, wide) && Acquire(key, sc, st, h, limit).out.Ok?
    ensures Acquire(key, wide, st, h, limit) == Acquire(key, sc, st, h, limit)
    decreases Rank(sc), 1, 0
  {
    hide Eval;
    if key !in st.granted && key.0 in st.capabilities {
      var def := st.capabilities[key.0];
      var env := Bind(sc.env, def.params, key.1);
      WiderWith(sc, wide, env, key);
      EvalWidens(def.body, sc.(env := env), wide.(env := env), st, h, limit);
    }
  }

  lemma {:induction false} WithCapWidens(cap: string, args: seq<Expr>, body: Expr, sc: Scope, wide: Scope, st: Store,
                                         h: Host, limit: u64)
    requires Wider(sc, wide) && WithCap(cap, args, body, sc, st, h, limit).out.Ok?
    ensures WithCap(cap, args, body, wide, st, h, limit) == WithCap(cap, args, body, sc, st, h, limit)
    decreases Rank(sc), 3, 0
  {
    hide Eval, Args, Acquire, Wider;
    ArgsWiden(args, sc, wide, st, h, limit);
    var r := Args(args, sc, st, h, limit);
    var key := (cap, r.out.value);
    AcquireWidens(key, sc, wide, r.st, h, limit);
    WiderWith(sc, wide, sc.env, key);
    EvalWidens(body, sc.(caps := sc.caps + [key]), wide.(caps := wide.caps + [key]),
               Acquire(key, sc, r.st, h, limit).st, h, limit);
  }

  lemma {:induction false} ReadWidens(table: string, key: Expr, sc: Scope, wide: Scope, st: Store, h: Host, limit: u64)
    requires Wider(sc, wide) && ReadRow(table, key, sc, st, h, limit).out.Ok?
    ensures ReadRow(table, key, wide, st, h, limit) == ReadRow(table, key, sc, st, h, limit)
    decreases Rank(sc), 1, 0
  {
    hide Eval, FindRow, Spend, Wider;
    EvalWidens(key, sc, wide, Spend(st, SLOAD, limit).st, h, limit);
  }

  lemma {:induction false} WriteWidens(table: string, key: Expr, row: Expr, sc: Scope, wide: Scope, st: Store, h: Host,
                                       limit: u64)
    requires Wider(sc, wide) && WriteRow(table, key, row, sc, st, h, limit).out.Ok?
    ensures WriteRow(table, key, row, wide, st, h, limit) == WriteRow(table, key, row, sc, st, h, limit)
    decreases Rank(sc), 2, 0
  {
    hide StoreRow, Spend, Wider;
    StoreRowWidens(table, key, row, sc, wide, Spend(st, SSTORE_SET, limit).st, h, limit);
  }

  lemma {:induction false} StoreRowWidens(table: string, key: Expr, row: Expr, sc: Scope, wide: Scope, st: Store,
                                          h: Host, limit: u64)
    requires Wider(sc, wide) && StoreRow(table, key, row, sc, st, h, limit).out.Ok?
    ensures StoreRow(table, key, row, wide, st, h, limit) == StoreRow(table, key, row, sc, st, h, limit)
    decreases Rank(sc), 1, 1
  {
    hide Eval, PutRow, Wider;
    EvalWidens(key, sc, wide, st, h, limit);
    var r := Eval(key, sc, st, h, limit);
    EvalWidens(row, sc, wide, r.st, h, limit);
  }

  lemma {:induction false} ApplicationWidens(func: Expr, args: seq<Expr>, sc: Scope, wide: Scope, st: Store, h: Host,
                                             limit: u64)
    requires Wider(sc, wide) && Application(func, args, sc, st, h, limit).out.Ok?
    ensures Application(func, args, wide, st, h, limit) == Application(func, args, sc, st, h, limit)
    decreases Rank(sc), 3, 0
  {
    hide Eval, Args, Builtin, IsPure, Wider;
    ArgsWiden(args, sc, wide, st, h, limit);
    var r := Args(args, sc, st, h, limit);
    if !IsPure(func.symbol) && func.symbol !in EFFECTFUL {
      var f := r.st.functions[func.symbol];
      var env := Bind(sc.env, f.params, r.out.value);
      WiderWith(sc, wide, env, ("", []));
      EvalWidens(f.body, sc.(env := env), wide.(env := env), r.st, h, limit);
    }
  }

  // ---------- What require-capability sees ----------

  function Literals(vs: seq<Value>): (es: seq<Expr>)
    ensures |es| == |vs|
  {
    seq(|vs|, i requires 0 <= i < |vs| => Literal(vs[i]))
  }

  // A requirement inside any number of with-capability frames.
  function Nest(frames: seq<Cap>, key: Cap): Expr {
    if frames == [] then RequireCapability(key.0, Literals(key.1))
    else WithCapability(frames[0].0, Literals(frames[0].1), Nest(frames[1..], key))
  }

  lemma {:induction false} LiteralArgs(vs: seq<Value>, sc: Scope, st: Store, h: Host, limit: u64)
    ensures var r := Args(Literals(vs), sc, st, h, limit);
            r.out == Ok(vs) || r.out == Err(OutOfGas) || r.out == Err(DepthExceeded)
    decreases |vs|
  {
    if vs != [] {
      var r := Eval(Literals(vs)[0], sc, st, h, limit);
      assert Literals(vs)[1..] == Literals(vs[1..]);
      assert vs == [vs[0]] + vs[1..];
      assert Form(Literal(vs[0]), sc.(depth := sc.depth + 1), Spend(st, BASE, limit).st, h, limit).out == Ok(vs[0]);
      LiteralArgs(vs[1..], sc, r.st, h, limit);
    }
  }

  // A requirement that succeeds is met by an enclosing frame, and one that fails for lack of the
  // capability has no such frame, whatever the bodies of the capabilities around it do.
  lemma {:induction false} RequireSeesEnclosingFrames(frames: seq<Cap>, key: Cap, sc: Scope, st: Store, h: Host,
                                                      limit: u64)
    ensures var out := Eval(Nest(frames, key), sc, st, h, limit).out;
            && (out.Ok? ==> out.value == Boolean(true) && key in sc.caps + frames)
            && (out == Err(CapNotInScope(key.0)) ==> key !in sc.caps + frames)
    decreases |frames|
  {
    hide Args, Acquire, Spend;
    var e := Nest(frames, key);
    var inner := sc.(depth := sc.depth + 1);
    var paid := Spend(st, BASE, limit);
    if sc.depth + 1 <= MAX_RECURSION_DEPTH && paid.out.Ok? {
      if frames == [] {
        LiteralArgs(key.1, inner, paid.st, h, limit);
        assert Form(e, inner, paid.st, h, limit) == RequireCap(key.0, Literals(key.1), inner, paid.st, h, limit);
      } else {
        var frame := frames[0];
        assert Form(e, inner, paid.st, h, limit) ==
               WithCap(frame.0, Literals(frame.1), Nest(frames[1..], key), inner, paid.st, h, limit);
        LiteralArgs(frame.1, inner, paid.st, h, limit);
        var r := Args(Literals(frame.1), inner, paid.st, h, limit);
        if r.out.Ok? {
          assert r.out.value == frame.1 && (frame.0, frame.1) == frame;
          AcquireErrors(frame, inner, r.st, h, limit);
          var g := Acquire(frame, inner, r.st, h, limit);
          if g.out.Ok? {
            var body := inner.(caps := inner.caps + [frame]);
            RequireSeesEnclosingFrames(frames[1..], key, body, g.st, h, limit);
            assert body.caps + frames[1..] == sc.caps + frames;
          }
        }
      }
    }
  }

  lemma AcquireErrors(key: Cap, sc: Scope, st: Store, h: Host, limit: u64)
    ensures var out := Acquire(key, sc, st, h, limit).out;
            out.Ok? || out.Panic? || out == Err(CapNotGranted(key.0))
  {
    hide Eval;
  }

  // ---------- Numbers and texts ----------

  // Every integer that int-to-str writes in decimals, str-to-int reads back.
  lemma StrToIntUndoesIntToStr(n: i128, h: Host)
    ensures var s := Pure("int-to-str", [Integer(n)], h); s.Ok? && Pure("str-to-int", [s.value], h) == Ok(Integer(n))
  {
    hide ParseI128, PrintInt;
    ParseDecimal(n);
  }

  // ---------- Sorting ----------

  predicate Ascending(l: seq<Value>) {
    forall i, j :: 0 <= i < j < |l| ==> AtMost(l[i], l[j])
  }

  lemma {:induction false} TextTotal(a: string, b: string)
    ensures TextAtMost(a, b) || TextAtMost(b, a)
  {
    if a != "" && b != "" && a[0] == b[0] {
      TextTotal(a[1..], b[1..]);
    }
  }

  lemma {:induction false} TextTransitive(a: string, b: string, c: string)
    requires TextAtMost(a, b) && TextAtMost(b, c)
    ensures TextAtMost(a, c)
  {
    if a != "" && a[0] == b[0] == c[0] {
      TextTransitive(a[1..], b[1..], c[1..]);
    }
  }

  // Of one kind, in the sense of uniform lists.
  predicate SameKind(a: Value, b: Value) {
    a.Integer? == b.Integer? && a.Str? == b.Str?
  }

  lemma AtMostTotal(a: Value, b: Value)
    requires SameKind(a, b)
    ensures AtMost(a, b) || AtMost(b, a)
  {
    hide TextAtMost;
    if a.Str? {
      TextTotal(a.s, b.s);
    }
  }

  lemma AtMostTransitive(a: Value, b: Value, c: Value)
    requires SameKind(a, b) && SameKind(b, c) && AtMost(a, b) && AtMost(b, c)
    ensures AtMost(a, c)
  {
    hide TextAtMost;
    if a.Str? {
      TextTransitive(a.s, b.s, c.s);
    }
  }

  lemma {:induction false} InsertAscends(x: Value, l: seq<Value>)
    requires Ascending(l) && forall i :: 0 <= i < |l| ==> SameKind(x, l[i])
    ensures Ascending(Insert(x, l)) && multiset(Insert(x, l)) == multiset(l) + multiset{x}
    decreases |l|
  {
    hide AtMost;
    if l == [] {
    } else if AtMost(x, l[0]) {
      forall i | 0 < i < |l| ensures AtMost(x, l[i]) {
        AtMostTransitive(x, l[0], l[i]);
      }
    } else {
      var rest := Insert(x, l[1..]);
      assert l == [l[0]] + l[1..];
      InsertAscends(x, l[1..]);
      AtMostTotal(x, l[0]);
      forall i | 0 <= i < |rest| ensures AtMost(l[0], rest[i]) {
        assert rest[i] in multiset(rest);
        assert rest[i] == x || rest[i] in l[1..];
      }
    }
  }

  // sort puts a list of integers, or of strings, into ascending order, and keeps its elements.
  lemma {:induction false} SortAscends(l: seq<Value>)
    requires Uniform(l)
    ensures Ascending(Sorted(l)) && multiset(Sorted(l)) == multiset(l)
    decreases |l|
  {
    hide AtMost, Insert;
    if l != [] {
      var rest := Sorted(l[1..]);
      assert l == [l[0]] + l[1..];
      SortAscends(l[1..]);
      forall i | 0 <= i < |rest| ensures SameKind(l[0], rest[i]) {
        assert rest[i] in multiset(rest);
        assert rest[i] in l[1..];
      }
      InsertAscends(l[0], rest);
    }
  }

  // ---------- Recursion ----------

  // A function that only calls itself never returns: the depth bound, or the gas limit, ends the
  // recursion, and nothing but gas has been consumed.
  lemma {:induction false} SelfCallEnds(f: string, sc: Scope, st: Store, h: Host, limit: u64)
    requires !IsPure(f) && f !in EFFECTFUL
    requires f in st.functions && st.functions[f] == Function(f, [], App(Symbol(f), []), "")
    ensures var r := Eval(App(Symbol(f), []), sc, st, h, limit);
            && (r.out == Err(DepthExceeded) || r.out == Err(OutOfGas))
            && r.st == st.(used := r.st.used)
    decreases Rank(sc)
  {
    hide IsPure, Builtin;
    var paid := Spend(st, BASE, limit);
    if sc.depth + 1 <= MAX_RECURSION_DEPTH && paid.out.Ok? {
      var inner := sc.(depth := sc.depth + 1);
      var e := App(Symbol(f), []);
      assert Form(e, inner, paid.st, h, limit) == Application(Symbol(f), [], inner, paid.st, h, limit);
      assert Args([], inner, paid.st, h, limit) == Res(Ok([]), paid.st);
      assert Application(Symbol(f), [], inner, paid.st, h, limit) ==
             Call(paid.st.functions[f], [], inner, paid.st, h, limit);
      assert inner.(env := Bind(inner.env, [], [])) == inner;
      assert Call(paid.st.functions[f], [], inner, paid.st, h, limit) == Eval(e, inner, paid.st, h, limit);
      SelfCallEnds(f, inner, paid.st, h, limit);
    }
  }
}
