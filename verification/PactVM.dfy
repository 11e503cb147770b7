/** The Pact interpreter as the object that `pact.rs` makes of it: one environment that is changed and
    put back, one stack of active capabilities, one depth counter, and tables changed in place.
    `Eval` is proved to be the big-step semantics of PactSemantics. */
module PactVM {
  import opened Ints
  import opened Wrappers
  import opened Gas
  import opened PactSyntax
  import opened PactSemantics
  import PactGrammar
  import PactParser
  import PactRun

  class VM {
    const meter: GasMeter
    const host: Host
    var env: Env
    var functions: map<string, Function>
    var capabilities: map<string, Function>
    var activeCaps: seq<Cap>
    var granted: seq<Cap>
    var schemas: map<string, seq<(string, string)>>
    var tables: map<string, Table>
    var modules: map<string, PactModule>
    var keysets: Keysets
    var currentModule: Option<string>
    var depth: nat
    var events: seq<Event>

    ghost function Stored(): Store
      reads this, meter
    {
      Store(meter.used, functions, capabilities, granted, schemas, tables, modules, keysets, currentModule, events)
    }

    ghost function Around(): Scope
      reads this
    {
      Scope(env, activeCaps, depth)
    }

    constructor (host: Host, gasLimit: u64)
      ensures Stored() == EMPTY_STORE && Around() == TOP_LEVEL
      ensures this.host == host && meter.limit == gasLimit && fresh(meter)
    {
      this.host := host;
      meter := new GasMeter(gasLimit);
      env, functions, capabilities, activeCaps, granted := map[], map[], map[], [], [];
      schemas, tables, modules, keysets, currentModule, depth, events := map[], map[], map[], map[], None, 0, [];
    }

    method Spend(amount: nat) returns (r: Outcome<()>)
      modifies meter
      ensures Res(r, Stored()) == PactSemantics.Spend(old(Stored()), amount, meter.limit)
    {
      var ok := meter.Consume(amount);
      r := if ok then Ok(()) else Err(OutOfGas);
    }

    // The evaluator computes the semantics. Capabilities are always put back, also on errors and panics;
    // environment and depth are put back whenever a value is returned.
    method Eval(e: Expr) returns (r: Outcome<Value>)
      modifies this, meter
      ensures Res(r, Stored()) == PactSemantics.Eval(e, old(Around()), old(Stored()), host, meter.limit)
      ensures activeCaps == old(activeCaps)
      ensures r.Ok? ==> Around() == old(Around())
      ensures depth >= old(depth)
      decreases Rank(Around()), 0, 0
    {
      hide PactSemantics.Form;
      depth := depth + 1;
      if depth > MAX_RECURSION_DEPTH {
        return Err(DepthExceeded);
      }
      var _ :- Spend(BASE);
      var early;
      r, early := EvalForm(e);
      if !early {
        depth := depth - 1;
      }
    }

    // One arm of the evaluator's match. `early` marks the errors that leave `eval` at once, with the
    // depth still raised.
    method EvalForm(e: Expr) returns (r: Outcome<Value>, early: bool)
      modifies this, meter
      ensures Res(r, Stored()) == PactSemantics.Form(e, old(Around()), old(Stored()), host, meter.limit)
      ensures activeCaps == old(activeCaps)
      ensures r.Ok? ==> Around() == old(Around()) && !early
      ensures depth >= old(depth)
      decreases Rank(Around()), 5, 0
    {
      hide PactSemantics.Eval, PactSemantics.Args, PactSemantics.LetIn, PactSemantics.WithCap, PactSemantics.LoadModule;
      hide Application, ReadRow, WriteRow, Conditional, RequireCap, EnforceThat, EnforceGuardOf, Stored;
      early := false;
      if e.App? {
        r := EvalApp(e.func, e.args);
      } else if e.Let? {
        r, early := EvalLet(e.bindings, e.body);
      } else if e.If? {
        r, early := EvalIf(e.cond, e.thn, e.els);
      } else if e.WithCapability? {
        r, early := EvalWithCap(e.cap, e.args, e.body);
      } else if e.EnforceGuard? {
        r, early := EvalEnforceGuard(e.guard);
      } else if Fragile(e) {
        r := EvalFragile(e);
        early := !r.Ok?;
      } else {
        r := EvalSimple(e);
      }
    }

    // Forms all of whose errors leave `eval` at once.
    method EvalFragile(e: Expr) returns (r: Outcome<Value>)
      requires Fragile(e)
      modifies this, meter
      ensures Res(r, Stored()) == PactSemantics.Form(e, old(Around()), old(Stored()), host, meter.limit)
      ensures activeCaps == old(activeCaps)
      ensures r.Ok? ==> Around() == old(Around())
      ensures depth >= old(depth)
      decreases Rank(Around()), 4, 1
    {
      hide PactSemantics.LoadModule, ReadRow, WriteRow, RequireCap, EnforceThat, Stored;
      match e
      case Module(m) => r := DoLoadModule(m);
      case RequireCapability(cap, args) => r := EvalRequire(cap, args);
      case Read(table, key) => r := EvalRead(table, key);
      case Write(_, table, key, row) => r := EvalWrite(table, key, row);
      case Enforce(cond, msg) => r := EvalEnforce(cond, msg);
    }

    // Forms without parts to evaluate: constants, names, definitions, and what has no effect at run time.
    method EvalSimple(e: Expr) returns (r: Outcome<Value>)
      requires !Fragile(e) && !e.App? && !e.Let? && !e.If? && !e.WithCapability? && !e.EnforceGuard?
      modifies `functions, `capabilities, `schemas, `tables
      ensures Res(r, Stored()) == PactSemantics.Form(e, old(Around()), old(Stored()), host, meter.limit)
    {
      match e
      case Literal(v) => r := Ok(v);
      case Symbol(name) => r := Lookup(name, env);
      case Lambda(params, _) => r := Ok(Str(LambdaText(params)));
      case Defun(name, params, body, _) =>
        var f := Function(name, params, body, ModuleName(currentModule));
        functions := functions[FullName(currentModule, name) := f];
        r := Ok(Unit);
      case Defcap(name, params, body) =>
        var f := Function(name, params, body, ModuleName(currentModule));
        capabilities := capabilities[FullName(currentModule, name) := f];
        r := Ok(Unit);
      case Defschema(name, fields) =>
        schemas := schemas[name := fields];
        r := Ok(Unit);
      case Deftable(name, schema) =>
        tables := tables[name := Table(schema, map[])];
        r := Ok(Unit);
      case Property(_, _) => r := Ok(Unit);
      case Interface(_, _) => r := Ok(Unit);
    }

    method EvalIf(cond: Expr, thn: Expr, els: Expr) returns (r: Outcome<Value>, early: bool)
      modifies this, meter
      ensures Res(r, Stored()) == Conditional(cond, thn, els, old(Around()), old(Stored()), host, meter.limit)
      ensures activeCaps == old(activeCaps)
      ensures r.Ok? ==> Around() == old(Around()) && !early
      ensures depth >= old(depth)
      decreases Rank(Around()), 4, 0
    {
      hide PactSemantics.Eval;
      r := Eval(cond);
      if !r.Ok? {
        return r, true;
      }
      if ToBool(r.value) {
        r := Eval(thn);
      } else {
        r := Eval(els);
      }
      early := false;
    }

    method EvalEnforce(cond: Expr, msg: string) returns (r: Outcome<Value>)
      modifies this, meter
      ensures Res(r, Stored()) == EnforceThat(cond, msg, old(Around()), old(Stored()), host, meter.limit)
      ensures activeCaps == old(activeCaps)
      ensures r.Ok? ==> Around() == old(Around())
      ensures depth >= old(depth)
      decreases Rank(Around()), 4, 0
    {
      hide PactSemantics.Eval;
      var v :- Eval(cond);
      if !ToBool(v) {
        return Err(EnforceFailed(msg));
      }
      return Ok(Boolean(true));
    }

    method EvalEnforceGuard(guard: Expr) returns (r: Outcome<Value>, early: bool)
      modifies this, meter
      ensures Res(r, Stored()) == EnforceGuardOf(guard, old(Around()), old(Stored()), host, meter.limit)
      ensures activeCaps == old(activeCaps)
      ensures r.Ok? ==> Around() == old(Around()) && !early
      ensures depth >= old(depth)
      decreases Rank(Around()), 4, 0
    {
      hide PactSemantics.Eval;
      r := Eval(guard);
      if !r.Ok? {
        return r, true;
      }
      r := CheckGuard(r.value, activeCaps, keysets, host);
      early := false;
    }

    // The arguments are evaluated in order; the first failure is the outcome.
    method EvalArgs(args: seq<Expr>) returns (r: Outcome<seq<Value>>)
      modifies this, meter
      ensures Res(r, Stored()) == PactSemantics.Args(args, old(Around()), old(Stored()), host, meter.limit)
      ensures activeCaps == old(activeCaps)
      ensures r.Ok? ==> Around() == old(Around())
      ensures depth >= old(depth)
      decreases Rank(Around()), 1, 0
    {
      hide PactSemantics.Eval, PactSemantics.Args;
      var vals: seq<Value> := [];
      ghost var sc, st := Around(), Stored();
      PrependNone(PactSemantics.Args(args, sc, st, host, meter.limit));
      for i := 0 to |args|
        invariant Around() == sc
        invariant PactSemantics.Args(args, sc, st, host, meter.limit) ==
                  Prepend(vals, PactSemantics.Args(args[i..], sc, Stored(), host, meter.limit))
      {
        PrependStep(vals, args[i..], sc, Stored(), host, meter.limit);
        assert args[i..][1..] == args[i + 1..];
        var v :- Eval(args[i]);
        vals := vals + [v];
      }
      PrependEnd(vals, args[|args|..], sc, Stored(), host, meter.limit);
      r := Ok(vals);
    }

    method EvalLet(bindings: seq<Binding>, body: Expr) returns (r: Outcome<Value>, early: bool)
      modifies this, meter
      ensures Res(r, Stored()) == PactSemantics.LetIn(bindings, body, old(Around()), old(Stored()), host, meter.limit)
      ensures activeCaps == old(activeCaps)
      ensures r.Ok? ==> Around() == old(Around()) && !early
      ensures depth >= old(depth)
      decreases Rank(Around()), 4, 0
    {
      hide PactSemantics.Eval;
      var oldEnv := env;
      for i := 0 to |bindings|
        invariant activeCaps == old(activeCaps) && depth == old(depth)
        invariant PactSemantics.LetIn(bindings, body, old(Around()), old(Stored()), host, meter.limit) ==
                  PactSemantics.LetIn(bindings[i..], body, Around(), Stored(), host, meter.limit)
      {
        assert bindings[i..][1..] == bindings[i + 1..];
        var v := Eval(bindings[i].val);
        if !v.Ok? {
          return v, true;
        }
        env := env[bindings[i].name := v.value];
      }
      r := Eval(body);
      env := oldEnv;
      early := false;
    }

    method BindParams(params: seq<string>, args: seq<Value>)
      modifies `env
      ensures env == Bind(old(env), params, args)
    {
      var i := 0;
      while i < |params| && i < |args|
        invariant i <= |params| && i <= |args|
        invariant Bind(old(env), params, args) == Bind(env, params[i..], args[i..])
        decreases |params| - i
      {
        assert params[i..][1..] == params[i + 1..] && args[i..][1..] == args[i + 1..];
        env := env[params[i] := args[i]];
        i := i + 1;
      }
    }

    method EvalWithCap(cap: string, args: seq<Expr>, body: Expr) returns (r: Outcome<Value>, early: bool)
      modifies this, meter
      ensures Res(r, Stored()) ==
              PactSemantics.WithCap(cap, args, body, old(Around()), old(Stored()), host, meter.limit)
      ensures activeCaps == old(activeCaps)
      ensures r.Ok? ==> Around() == old(Around()) && !early
      ensures depth >= old(depth)
      decreases Rank(Around()), 4, 0
    {
      hide PactSemantics.Eval, PactSemantics.Args, PactSemantics.Acquire;
      var vals := EvalArgs(args);
      if !vals.Ok? {
        return vals.PropagateFailure(), true;
      }
      var key := (cap, vals.value);
      var got := AcquireCap(key);
      if !got.Ok? {
        return got.PropagateFailure(), true;
      }
      activeCaps := activeCaps + [key];
      r := Eval(body);
      activeCaps := activeCaps[..|activeCaps| - 1];
      early := false;
    }

    method AcquireCap(key: Cap) returns (r: Outcome<()>)
      modifies this, meter
      ensures Res(r, Stored()) == PactSemantics.Acquire(key, old(Around()), old(Stored()), host, meter.limit)
      ensures activeCaps == old(activeCaps)
      ensures r.Ok? ==> Around() == old(Around())
      ensures depth >= old(depth)
      decreases Rank(Around()), 1, 0
    {
      hide PactSemantics.Eval;
      if key !in granted {
        if key.0 in capabilities {
          var def := capabilities[key.0];
          var oldEnv := env;
          BindParams(def.params, key.1);
          var result := Eval(def.body);
          env := oldEnv;
          if result.Panic? {
            return Panic;
          }
          if result.Err? {
            return Err(CapNotGranted(key.0));
          }
          granted := granted + [key];
        }
      }
      r := Ok(());
    }

    method EvalRequire(cap: string, args: seq<Expr>) returns (r: Outcome<Value>)
      modifies this, meter
      ensures Res(r, Stored()) == RequireCap(cap, args, old(Around()), old(Stored()), host, meter.limit)
      ensures activeCaps == old(activeCaps)
      ensures r.Ok? ==> Around() == old(Around())
      ensures depth >= old(depth)
      decreases Rank(Around()), 4, 0
    {
      hide PactSemantics.Args;
      var vals :- EvalArgs(args);
      if (cap, vals) !in activeCaps {
        return Err(CapNotInScope(cap));
      }
      return Ok(Boolean(true));
    }

    method EvalRead(table: string, key: Expr) returns (r: Outcome<Value>)
      modifies this, meter
      ensures Res(r, Stored()) == PactSemantics.ReadRow(table, key, old(Around()), old(Stored()), host, meter.limit)
      ensures activeCaps == old(activeCaps)
      ensures r.Ok? ==> Around() == old(Around())
      ensures depth >= old(depth)
      decreases Rank(Around()), 1, 0
    {
      hide PactSemantics.Eval;
      var _ :- Spend(SLOAD);
      var v :- Eval(key);
      if !v.Str? {
        return Err(TypeError("string"));
      }
      if table !in tables {
        return Err(TableNotFound(table));
      }
      if v.s !in tables[table].rows {
        return Err(RowNotFound(v.s));
      }
      return Ok(Object(tables[table].rows[v.s]));
    }

    method EvalWrite(table: string, key: Expr, row: Expr) returns (r: Outcome<Value>)
      modifies this, meter
      ensures Res(r, Stored()) ==
              PactSemantics.WriteRow(table, key, row, old(Around()), old(Stored()), host, meter.limit)
      ensures activeCaps == old(activeCaps)
      ensures r.Ok? ==> Around() == old(Around())
      ensures depth >= old(depth)
      decreases Rank(Around()), 2, 0
    {
      hide PactSemantics.Spend, StoreRow;
      var _ :- Spend(SSTORE_SET);
      r := EvalStoreRow(table, key, row);
    }

    method EvalStoreRow(table: string, key: Expr, row: Expr) returns (r: Outcome<Value>)
      modifies this, meter
      ensures Res(r, Stored()) == StoreRow(table, key, row, old(Around()), old(Stored()), host, meter.limit)
      ensures activeCaps == old(activeCaps)
      ensures r.Ok? ==> Around() == old(Around())
      ensures depth >= old(depth)
      decreases Rank(Around()), 1, 1
    {
      hide PactSemantics.Eval, StoreUnder;
      var k :- Eval(key);
      if !k.Str? {
        return Err(TypeError("string"));
      }
      r := EvalStore(table, k.s, row);
    }

    method EvalStore(table: string, key: string, row: Expr) returns (r: Outcome<Value>)
      modifies this, meter
      ensures Res(r, Stored()) ==
              PactSemantics.StoreUnder(table, key, row, old(Around()), old(Stored()), host, meter.limit)
      ensures activeCaps == old(activeCaps)
      ensures r.Ok? ==> Around() == old(Around())
      ensures depth >= old(depth)
      decreases Rank(Around()), 1, 0
    {
      hide PactSemantics.Eval, PactSemantics.PutRow;
      var v :- Eval(row);
      r := PutRow(table, key, v);
    }

    method PutRow(table: string, key: string, row: Value) returns (r: Outcome<Value>)
      modifies `tables
      ensures Res(r, Stored()) == PactSemantics.PutRow(table, key, row, old(Stored()))
    {
      if !row.Object? {
        return Err(NotAnObject);
      }
      if table !in tables {
        return Err(TableNotFound(table));
      }
      var t := tables[table];
      if |t.rows| >= MAX_TABLE_SIZE {
        return Err(TableFull);
      }
      tables := tables[table := t.(rows := t.rows[key := row.fields])];
      return Ok(Unit);
    }

    method DoLoadModule(m: PactModule) returns (r: Outcome<Value>)
      modifies this, meter
      ensures Res(r, Stored()) == PactSemantics.LoadModule(m, old(Around()), old(Stored()), host, meter.limit)
      ensures activeCaps == old(activeCaps)
      ensures r.Ok? ==> Around() == old(Around())
      ensures depth >= old(depth)
      decreases Rank(Around()), 4, 0
    {
      hide PactSemantics.Eval;
      currentModule := Some(m.name);
      ghost var st := Stored();
      for i := 0 to |m.definitions|
        invariant Around() == old(Around())
        invariant Definitions(m.definitions, old(Around()), st, host, meter.limit) ==
                  Definitions(m.definitions[i..], old(Around()), Stored(), host, meter.limit)
      {
        assert m.definitions[i..][1..] == m.definitions[i + 1..];
        var _ :- Eval(m.definitions[i]);
      }
      modules := modules[m.name := m];
      currentModule := None;
      r := Ok(Str("Loaded module: " + m.name));
    }

    method EvalApp(func: Expr, args: seq<Expr>) returns (r: Outcome<Value>)
      modifies this, meter
      ensures Res(r, Stored()) == PactSemantics.Application(func, args, old(Around()), old(Stored()), host, meter.limit)
      ensures activeCaps == old(activeCaps)
      ensures r.Ok? ==> Around() == old(Around())
      ensures depth >= old(depth)
      decreases Rank(Around()), 4, 0
    {
      hide PactSemantics.Eval, PactSemantics.Args, Builtin, IsPure, Call;
      if !func.Symbol? {
        var _ :- Eval(func);
        return Err(HigherOrder);
      }
      var vals :- EvalArgs(args);
      if IsPure(func.symbol) || func.symbol in EFFECTFUL {
        r := CallBuiltin(func.symbol, vals);
      } else if func.symbol in functions {
        r := CallFunction(functions[func.symbol], vals);
      } else {
        r := Err(UnknownFunction(func.symbol));
      }
    }

    method CallFunction(f: Function, args: seq<Value>) returns (r: Outcome<Value>)
      modifies this, meter
      ensures Res(r, Stored()) == PactSemantics.Call(f, args, old(Around()), old(Stored()), host, meter.limit)
      ensures activeCaps == old(activeCaps)
      ensures r.Ok? ==> Around() == old(Around())
      ensures depth >= old(depth)
      decreases Rank(Around()), 1, 0
    {
      hide PactSemantics.Eval;
      if |args| != |f.params| {
        return Err(WrongArity(f.name, |f.params|, |args|));
      }
      var oldEnv := env;
      BindParams(f.params, args);
      r := Eval(f.body);
      env := oldEnv;
    }

    method CallBuiltin(op: string, args: seq<Value>) returns (r: Outcome<Value>)
      requires IsPure(op) || op in EFFECTFUL
      modifies `keysets, `events, meter
      ensures Res(r, Stored()) == Builtin(op, args, old(Stored()), host, meter.limit)
    {
      hide Pure, IsPure;
      if op == "format" {
        r := DoFormat(args);
      } else if op !in EFFECTFUL {
        r := Pure(op, args, host);
      } else if op == "create-user-guard" {
        r := Ok(GuardValue(UserGuard(ModuleName(currentModule), "guard-fn")));
      } else if op == "define-keyset" {
        var named := DefineKeyset(args);
        if named.Ok? {
          keysets := keysets[named.value.0 := (named.value.1, KeysAll)];
          r := Ok(Unit);
        } else {
          r := named.PropagateFailure();
        }
      } else if op == "emit-event" {
        if |args| == 0 {
          return Panic;
        }
        events := events + [Event(EventTopic(args[0]), args[0])];
        r := Ok(Boolean(true));
      } else {
        r := HashBuiltin(args);
      }
    }

    method DoFormat(args: seq<Value>) returns (r: Outcome<Value>)
      ensures r == Pure("format", args, host)
    {
      hide Formatted, FilledIn;
      var v :- Arg(args, 0);
      var template :- AsString(v);
      var vs :- if |args| > 1 then AsList(args[1]) else Ok([]);
      var text := template;
      for i := 0 to |vs|
        invariant Formatted(template, vs, host) == Formatted(text, vs[i..], host)
      {
        assert vs[i..][1..] == vs[i + 1..];
        FormatStep(text, vs[i..], host);
        text := FilledIn(text, DisplayText(vs[i], host));
      }
      FormatEnd(text, host);
      assert vs[|vs|..] == [];
      r := Ok(Str(text));
    }

    method HashBuiltin(args: seq<Value>) returns (r: Outcome<Value>)
      modifies meter
      ensures Res(r, Stored()) == HashOf(args, old(Stored()), host, meter.limit)
    {
      var _ :- Spend(SHA3_BASE);
      if |args| == 0 {
        return Panic;
      }
      var length := if args[0].Str? then Utf8Length(args[0].s) else host.byteLength(args[0]);
      var _ :- Spend(SHA3_WORD * Words(length));
      r := Ok(Str(host.digest(args[0])));
    }

    // Expressions one after the other, on a VM at rest.
    method RunProgram(es: seq<Expr>, last: Value) returns (r: Outcome<Value>)
      requires Around() == TOP_LEVEL
      modifies this, meter
      ensures Res(r, Stored()) == PactSemantics.Program(es, last, old(Stored()), host, meter.limit)
      ensures r.Ok? ==> Around() == TOP_LEVEL
    {
      hide PactSemantics.Eval;
      var value := last;
      for i := 0 to |es|
        invariant Around() == TOP_LEVEL
        invariant PactSemantics.Program(es, last, old(Stored()), host, meter.limit) ==
                  PactSemantics.Program(es[i..], value, Stored(), host, meter.limit)
      {
        assert es[i..][1..] == es[i + 1..];
        value :- Eval(es[i]);
      }
      r := Ok(value);
    }

    method RunText(text: string, last: Value) returns (r: PactRun.Finish)
      requires Around() == TOP_LEVEL
      modifies this, meter
      ensures PactRun.Ran(r, Stored()) == PactRun.RunText(text, last, old(Stored()), host, meter.limit)
      ensures r.Finished? && r.out.Ok? ==> Around() == TOP_LEVEL
    {
      hide PactSemantics.Program, PactGrammar.AllExprs;
      var parser := new PactParser.Parser(text);
      var parsed := parser.ParseAll();
      match parsed
      case Value(es) =>
        var out := RunProgram(es, last);
        r := PactRun.Finished(out);
      case Error(e) => r := PactRun.Malformed(e);
      case Panicked => r := PactRun.Finished(Panic);
    }

    method ParseAndExecute(code: string, callData: Option<string>) returns (r: PactRun.Finish)
      requires Around() == TOP_LEVEL
      modifies this, meter
      ensures PactRun.Ran(r, Stored()) == PactRun.ParseAndExecute(code, callData, old(Stored()), host, meter.limit)
    {
      hide PactRun.RunText;
      r := RunText(code, Unit);
      if r.Finished? && r.out.Ok? && callData.Some? {
        r := RunText(callData.value, r.out.value);
      }
    }
  }

  lemma FormatStep(text: string, vs: seq<Value>, h: Host)
    requires vs != []
    ensures Formatted(text, vs, h) == Formatted(FilledIn(text, DisplayText(vs[0], h)), vs[1..], h)
  {
    hide FilledIn, DisplayText;
  }

  lemma FormatEnd(text: string, h: Host)
    ensures Formatted(text, [], h) == text
  {
  }

  predicate Fragile(e: Expr) {
    e.Module? || e.RequireCapability? || e.Read? || e.Write? || e.Enforce?
  }

  function Prepend(vals: seq<Value>, rest: Res<seq<Value>>): Res<seq<Value>> {
    if rest.out.Ok? then Res(Ok(vals + rest.out.value), rest.st) else rest
  }

  lemma PrependNone(rest: Res<seq<Value>>)
    ensures Prepend([], rest) == rest
  {
    if rest.out.Ok? {
      assert [] + rest.out.value == rest.out.value;
    }
  }

  lemma PrependStep(vals: seq<Value>, args: seq<Expr>, sc: Scope, st: Store, h: Host, limit: u64)
    requires args != []
    ensures var r := PactSemantics.Eval(args[0], sc, st, h, limit);
            Prepend(vals, Args(args, sc, st, h, limit)) ==
            if r.out.Ok? then Prepend(vals + [r.out.value], Args(args[1..], sc, r.st, h, limit))
            else Res(r.out.PropagateFailure(), r.st)
  {
    hide PactSemantics.Eval;
    var r := PactSemantics.Eval(args[0], sc, st, h, limit);
    if r.out.Ok? {
      var rest := Args(args[1..], sc, r.st, h, limit);
      if rest.out.Ok? {
        assert vals + ([r.out.value] + rest.out.value) == (vals + [r.out.value]) + rest.out.value;
      }
    }
  }

  lemma PrependEnd(vals: seq<Value>, args: seq<Expr>, sc: Scope, st: Store, h: Host, limit: u64)
    requires args == []
    ensures Prepend(vals, Args(args, sc, st, h, limit)) == Res(Ok(vals), st)
  {
    assert vals + [] == vals;
  }
}
