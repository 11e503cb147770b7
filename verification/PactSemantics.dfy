/** Big-step semantics of Pact. Environment, capability scope and depth are parameters that are only
    ever extended inward; the store is what evaluation threads through. */
module PactSemantics {
  import opened Ints
  import opened Wrappers
  import opened Gas
  import opened PactSyntax
  import opened PactText

  const MAX_RECURSION_DEPTH: nat := 256
  const MAX_TABLE_SIZE: nat := 100_000

  datatype Error =
    | OutOfGas | DepthExceeded | Unbound(name: string) | TypeError(wanted: string) | MissingArgument(op: string)
    | DivisionByZero | ModuloByZero | NegativeExponent | IndexOutOfBounds | BadInteger
    | HigherOrder | UnknownFunction(name: string) | WrongArity(name: string, expected: nat, got: nat)
    | CapNotGranted(cap: string) | CapNotInScope(cap: string) | CapGuardFailed(cap: string)
    | KeysetGuardFailed | UnknownKeyset(name: string) | ExpectedGuard
    | TableNotFound(table: string) | RowNotFound(key: string) | NotAnObject | TableFull | NegativeRoot
    | EnforceFailed(msg: string)

  /** A value, an error that the evaluator returns, or a Rust panic, which nothing intercepts. */
  datatype Outcome<+T> = Ok(value: T) | Err(error: Error) | Panic {
    predicate IsFailure() {
      !Ok?
    }

    function PropagateFailure<U>(): Outcome<U>
      requires !Ok?
    {
      if Err? then Err(error) else Panic
    }

    function Extract(): T
      requires Ok?
    {
      value
    }
  }

  type Env = map<string, Value>
  type Cap = (string, seq<Value>)

  datatype Function = Function(name: string, params: seq<string>, body: Expr, mod: string)
  datatype Table = Table(schema: string, rows: map<string, map<string, Value>>)
  datatype Event = Event(topic: string, data: Value)

  datatype Store = Store(
    used: u64,
    functions: map<string, Function>,
    capabilities: map<string, Function>,
    granted: seq<Cap>,
    schemas: map<string, seq<(string, string)>>,
    tables: map<string, Table>,
    modules: map<string, PactModule>,
    keysets: Keysets,
    currentModule: Option<string>,
    events: seq<Event>)

  const EMPTY_STORE := Store(0, map[], map[], [], map[], map[], map[], map[], None, [])

  /** What holds around an expression: bindings, enclosing with-capability frames, nesting depth. */
  datatype Scope = Scope(env: Env, caps: seq<Cap>, depth: nat)

  const TOP_LEVEL := Scope(map[], [], 0)

  // What the evaluator is given: the signers, the hash function, the size of a serialised value, the debug text
  // of a value, and two things that are not modelled here: a square root of floating-point numbers, and what sorting
  // makes of mixed lists, on which its comparison is no order.
  datatype Host = Host(
    signers: seq<string>,
    digest: Value -> string,
    byteLength: Value -> nat,
    debug: Value -> string,
    root: i128 -> i128,
    sortMixed: seq<Value> -> seq<Value>)

  datatype Res<+T> = Res(out: Outcome<T>, st: Store)

  // ---------- Values ----------

  function ToBool(v: Value): bool {
    match v
    case Boolean(b) => b
    case Integer(n) => n != 0
    case Str(s) => s != ""
    case List(l) => l != []
    case Unit => false
    case _ => true
  }

  function AsInteger(v: Value): Outcome<i128> {
    if v.Integer? then Ok(v.n) else Err(TypeError("integer"))
  }

  function AsString(v: Value): Outcome<string> {
    if v.Str? then Ok(v.s) else Err(TypeError("string"))
  }

  function AsList(v: Value): Outcome<seq<Value>> {
    if v.List? then Ok(v.items) else Err(TypeError("list"))
  }

  function Utf8Length(s: string): nat {
    if s == "" then 0
    else
      var c := s[0] as int;
      (if c < 0x80 then 1 else if c < 0x800 then 2 else if c < 0x1_0000 then 3 else 4) + Utf8Length(s[1..])
  }

  // ---------- Names and scopes ----------

  function Lookup(name: string, env: Env): Outcome<Value> {
    if name in env then Ok(env[name])
    else if '.' in name then Ok(ModRef(name))
    else match name
      case "true" => Ok(Boolean(true))
      case "false" => Ok(Boolean(false))
      case "CHARSET_ASCII" => Ok(Integer(0))
      case "CHARSET_LATIN1" => Ok(Integer(1))
      case _ => Err(Unbound(name))
  }

  type Keysets = map<string, (seq<string>, KeysetPred)>

  function ModuleName(current: Option<string>): string {
    if current.Some? then current.value else ""
  }

  function FullName(current: Option<string>, name: string): string {
    if ModuleName(current) == "" then name else ModuleName(current) + "." + name
  }

  // Parameters bound pairwise, as far as both lists go; later parameters win.
  function Bind(env: Env, params: seq<string>, args: seq<Value>): Env
    decreases |params|
  {
    if params == [] || args == [] then env
    else Bind(env[params[0] := args[0]], params[1..], args[1..])
  }

  function LambdaText(params: seq<string>): string {
    "<lambda (" + Join(params) + ")>"
  }

  function Join(words: seq<string>): string {
    if words == [] then "" else if |words| == 1 then words[0] else words[0] + " " + Join(words[1..])
  }

  function SignedCount(keys: seq<string>, signers: seq<string>): (n: nat)
    ensures n <= |keys|
    ensures n == |keys| <==> forall k :: k in keys ==> k in signers
  {
    if keys == [] then 0
    else
      assert keys == [keys[0]] + keys[1..];
      (if keys[0] in signers then 1 else 0) + SignedCount(keys[1..], signers)
  }

  function VerifyGuard(g: Guard, caps: seq<Cap>, h: Host): Outcome<Value> {
    match g
    case KeySetGuard(keys, pred) =>
      var n := SignedCount(keys, h.signers);
      var satisfied := match pred
        case KeysAll => n == |keys|
        case KeysAny => n >= 1
        case Keys2 => n >= 2
        case Custom(_) => true;
      if satisfied then Ok(Boolean(true)) else Err(KeysetGuardFailed)
    case CapabilityGuard(cap, args) =>
      if (cap, args) in caps then Ok(Boolean(true)) else Err(CapGuardFailed(cap))
    case UserGuard(_, _) => Ok(Boolean(true))
    case PactGuard(_) => Ok(Boolean(true))
  }

  // ---------- Builtins ----------

  const ARITHMETIC: set<string> := {"+", "-", "*", "/", "mod", "abs"}
  const RELATIONAL: set<string> := {"=", "==", "!=", "<", "<=", ">", ">="}
  const LOGICAL: set<string> := {"and", "or", "not"}
  const SEQUENCES: set<string> := {"concat", "length", "take", "drop", "list", "at", "contains", "reverse"}
  const OTHER_PURE: set<string> := {"identity", "typeof", "keyset-ref-guard", "read-keyset", "create-capability-guard"}
  const EFFECTFUL: set<string> := {"hash", "define-keyset", "emit-event", "create-user-guard"}
  const CONVERTING: set<string> := {"^", "pow", "str-to-int", "int-to-str", "enumerate", "time", "add-time", "format"}
  const SQRT_AND_SORT: set<string> := {"sqrt", "sort"}

  predicate IsPure(op: string) {
    || op in ARITHMETIC || op in RELATIONAL || op in LOGICAL || op in SEQUENCES
    || op in OTHER_PURE || op in CONVERTING || op in SQRT_AND_SORT
  }

  // Indexing the argument vector panics when the argument is missing.
  function Arg(args: seq<Value>, i: nat): Outcome<Value> {
    if i < |args| then Ok(args[i]) else Panic
  }

  function IntArg(args: seq<Value>, i: nat): Outcome<i128> {
    var v :- Arg(args, i);
    AsInteger(v)
  }

  function Pure(op: string, args: seq<Value>, h: Host): Outcome<Value> {
    if op in ARITHMETIC then Arithmetic(op, args)
    else if op in RELATIONAL then Relational(op, args)
    else if op in LOGICAL then Logical(op, args)
    else if op in SEQUENCES then Sequences(op, args)
    else if op in OTHER_PURE then OtherPure(op, args)
    else if op in CONVERTING then Converting(op, args, h)
    else SqrtOrSort(op, args, h)
  }

  function Arithmetic(op: string, args: seq<Value>): Outcome<Value> {
    if op == "abs" then
      var a :- IntArg(args, 0);
      Ok(Integer(WrapI128(Abs(a))))
    else if op == "mod" then
      var a :- IntArg(args, 0);
      var b :- IntArg(args, 1);
      if b == 0 then Err(ModuloByZero)
      else if b == -1 && a == WrapI128(U128 / 2) then Panic
      else Ok(Integer(WrapI128(TruncMod(a, b))))
    else if |args| < 2 then Err(MissingArgument(op))
    else if op == "/" then
      var b :- AsInteger(args[1]);
      if b == 0 then Err(DivisionByZero)
      else
        var a :- AsInteger(args[0]);
        if b == -1 && a == WrapI128(U128 / 2) then Panic else Ok(Integer(WrapI128(TruncDiv(a, b))))
    else
      var a :- AsInteger(args[0]);
      var b :- AsInteger(args[1]);
      Ok(Integer(WrapI128(if op == "+" then a + b else if op == "-" then a - b else a * b)))
  }

  function Relational(op: string, args: seq<Value>): Outcome<Value> {
    if op == "=" || op == "==" || op == "!=" then
      var a :- Arg(args, 0);
      var b :- Arg(args, 1);
      Ok(Boolean((a == b) == (op != "!=")))
    else
      var a :- IntArg(args, 0);
      var b :- IntArg(args, 1);
      Ok(Boolean(if op == "<" then a < b else if op == "<=" then a <= b else if op == ">" then a > b else a >= b))
  }

  function Logical(op: string, args: seq<Value>): Outcome<Value> {
    var a :- Arg(args, 0);
    if op == "not" then Ok(Boolean(!ToBool(a)))
    else
      var b :- Arg(args, 1);
      Ok(Boolean(if op == "and" then ToBool(a) && ToBool(b) else ToBool(a) || ToBool(b)))
  }

  function Sequences(op: string, args: seq<Value>): Outcome<Value> {
    if op == "concat" then
      var s :- Concat(args);
      Ok(Str(s))
    else if op == "list" then Ok(List(args))
    else if op == "length" then
      var v :- Arg(args, 0);
      match v
      case Str(s) => Ok(Integer(WrapI128(Utf8Length(s))))
      case List(l) => Ok(Integer(WrapI128(|l|)))
      case _ => Err(TypeError("string or list"))
    else if op == "reverse" then
      var v :- Arg(args, 0);
      var l :- AsList(v);
      Ok(List(seq(|l|, i requires 0 <= i < |l| => l[|l| - 1 - i])))
    else if op == "contains" then
      var x :- Arg(args, 0);
      var v :- Arg(args, 1);
      var l :- AsList(v);
      Ok(Boolean(x in l))
    else
      var k :- IntArg(args, 0);
      var v :- Arg(args, 1);
      var n := WrapU64(k);
      if op == "at" then
        var l :- AsList(v);
        if n < |l| then Ok(l[n]) else Err(IndexOutOfBounds)
      else
        match v
        case Str(s) => var m := Min(n, |s|); Ok(Str(if op == "take" then s[..m] else s[m..]))
        case List(l) => var m := Min(n, |l|); Ok(List(if op == "take" then l[..m] else l[m..]))
        case _ => Err(TypeError("string or list"))
  }

  function Concat(args: seq<Value>): Outcome<string> {
    if args == [] then Ok("")
    else
      var s :- AsString(args[0]);
      var rest :- Concat(args[1..]);
      Ok(s + rest)
  }

  function OtherPure(op: string, args: seq<Value>): Outcome<Value> {
    var v :- Arg(args, 0);
    if op == "identity" then Ok(v)
    else if op == "typeof" then Ok(Str(TypeName(v)))
    else
      var name :- AsString(v);
      Ok(if op == "create-capability-guard" then GuardValue(CapabilityGuard(name, [])) else KeySetRef(name))
  }

  function Power(base: int, n: nat): int {
    if n == 0 then 1 else base * Power(base, n - 1)
  }

  function Converting(op: string, args: seq<Value>, h: Host): Outcome<Value> {
    if op == "^" || op == "pow" then
      var base :- IntArg(args, 0);
      var n :- IntArg(args, 1);
      if n < 0 then Err(NegativeExponent) else Ok(Integer(WrapI128(Power(base, n % 0x1_0000_0000))))
    else if op == "str-to-int" then
      var v :- Arg(args, 0);
      var s :- AsString(v);
      match ParseI128(s)
      case Some(n) => Ok(Integer(n))
      case None => Err(BadInteger)
    else if op == "int-to-str" then
      var radix :- if |args| > 1 then AsInteger(args[1]) else Ok(10);
      var n :- IntArg(args, 0);
      Ok(Str(if radix % 0x1_0000_0000 == 16 then PrintHex(n % U128) else PrintInt(n)))
    else if op == "enumerate" then
      var first :- IntArg(args, 0);
      var last :- IntArg(args, 1);
      Ok(List(seq(Max(0, last - first + 1), i requires 0 <= i < last - first + 1 => Integer(first + i))))
    else
      var v :- Arg(args, 0);
      if op == "add-time" then
        var seconds :- IntArg(args, 1);
        Ok(Time(WrapI64((if v.Time? then v.seconds else 0) + WrapI64(seconds))))
      else
        var s :- AsString(v);
        if op == "time" then Ok(Time(0))
        else
          var vs :- if |args| > 1 then AsList(args[1]) else Ok([]);
          Ok(Str(Formatted(s, vs, h)))
  }

  function SqrtOrSort(op: string, args: seq<Value>, h: Host): Outcome<Value> {
    var v :- Arg(args, 0);
    if op == "sqrt" then
      var a :- AsInteger(v);
      if a < 0 then Err(NegativeRoot) else Ok(Integer(h.root(a)))
    else
      var l :- AsList(v);
      Ok(List(if Uniform(l) then Sorted(l) else h.sortMixed(l)))
  }

  // All integers, all strings, or neither.
  predicate Uniform(l: seq<Value>) {
    || (forall i :: 0 <= i < |l| ==> l[i].Integer?)
    || (forall i :: 0 <= i < |l| ==> l[i].Str?)
    || (forall i :: 0 <= i < |l| ==> !l[i].Integer? && !l[i].Str?)
  }

  predicate TextAtMost(a: string, b: string) {
    a == "" || (b != "" && (a[0] < b[0] || (a[0] == b[0] && TextAtMost(a[1..], b[1..]))))
  }

  // Values of other kinds count as equal.
  predicate AtMost(a: Value, b: Value) {
    if a.Integer? && b.Integer? then a.n <= b.n else if a.Str? && b.Str? then TextAtMost(a.s, b.s) else true
  }

  function Insert(x: Value, l: seq<Value>): seq<Value> {
    if l == [] || AtMost(x, l[0]) then [x] + l else [l[0]] + Insert(x, l[1..])
  }

  function Sorted(l: seq<Value>): seq<Value> {
    if l == [] then [] else Insert(l[0], Sorted(l[1..]))
  }

  // Each value takes the place of the first pair of braces that is left, if any.
  function Formatted(template: string, vs: seq<Value>, h: Host): string
    decreases |vs|
  {
    if vs == [] then template else Formatted(FilledIn(template, DisplayText(vs[0], h)), vs[1..], h)
  }

  function FilledIn(template: string, text: string): string {
    var at := FindBraces(template);
    if at + 2 <= |template| then template[..at] + text + template[at + 2..] else template
  }

  function FindBraces(s: string): (at: nat)
    ensures at <= |s|
    ensures at + 2 <= |s| ==> s[at] == '{' && s[at + 1] == '}'
    ensures forall i :: 0 <= i < at && i + 2 <= |s| ==> !(s[i] == '{' && s[i + 1] == '}')
  {
    if |s| < 2 then |s| else if s[0] == '{' && s[1] == '}' then 0 else 1 + FindBraces(s[1..])
  }

  function DisplayText(v: Value, h: Host): string {
    match v
    case Str(s) => s
    case Integer(n) => PrintInt(n)
    case Boolean(b) => if b then "true" else "false"
    case _ => h.debug(v)
  }

  function TypeName(v: Value): string {
    match v
    case Integer(_) => "integer"
    case Decimal(_, _) => "decimal"
    case Str(_) => "string"
    case Boolean(_) => "bool"
    case List(_) => "list"
    case Object(_) => "object"
    case GuardValue(_) => "guard"
    case Unit => "unit"
    case Time(_) => "time"
    case ModRef(_) => "modref"
    case CapToken(_, _) => "capability"
    case KeySetRef(_) => "keyset"
  }

  function Spend(st: Store, amount: nat, limit: u64): (r: Res<()>)
    ensures r.out == Ok(()) || r.out == Err(OutOfGas)
  {
    if Fits(st.used, amount, limit) then Res(Ok(()), st.(used := SatAdd(st.used, amount)))
    else Res(Err(OutOfGas), st.(used := limit))
  }

  function KeyNames(vs: seq<Value>): Outcome<seq<string>> {
    if vs == [] then Ok([])
    else
      var k :- AsString(vs[0]);
      var rest :- KeyNames(vs[1..]);
      Ok([k] + rest)
  }

  function Effectful(op: string, args: seq<Value>, st: Store, h: Host, limit: u64): Res<Value> {
    if op == "create-user-guard" then Res(Ok(GuardValue(UserGuard(ModuleName(st.currentModule), "guard-fn"))), st)
    else if op == "define-keyset" then
      var named := DefineKeyset(args);
      match named
      case Ok((name, keys)) => Res(Ok(Unit), st.(keysets := st.keysets[name := (keys, KeysAll)]))
      case Err(e) => Res(Err(e), st)
      case Panic => Res(Panic, st)
    else if op == "emit-event" then
      match Arg(args, 0)
      case Ok(v) =>
        var topic := EventTopic(v);
        Res(Ok(Boolean(true)), st.(events := st.events + [Event(topic, v)]))
      case Err(e) => Res(Err(e), st)
      case Panic => Res(Panic, st)
    else HashOf(args, st, h, limit)
  }

  function EventTopic(v: Value): string {
    match v
    case CapToken(name, _) => name
    case Str(s) => s
    case _ => "event"
  }

  function DefineKeyset(args: seq<Value>): Outcome<(string, seq<string>)> {
    var v :- Arg(args, 0);
    var name :- AsString(v);
    var w :- Arg(args, 1);
    var keys :- if w.List? then KeyNames(w.items) else Ok([]);
    Ok((name, keys))
  }

  // The base price is charged before the argument is looked at, the price per word after.
  function HashOf(args: seq<Value>, st: Store, h: Host, limit: u64): Res<Value> {
    var r1 := Spend(st, SHA3_BASE, limit);
    if !r1.out.Ok? then Res(Err(OutOfGas), r1.st)
    else
      match Arg(args, 0)
      case Ok(v) =>
        var length := if v.Str? then Utf8Length(v.s) else h.byteLength(v);
        var r2 := Spend(r1.st, SHA3_WORD * Words(length), limit);
        if !r2.out.Ok? then Res(Err(OutOfGas), r2.st) else Res(Ok(Str(h.digest(v))), r2.st)
      case Err(e) => Res(Err(e), r1.st)
      case Panic => Res(Panic, r1.st)
  }

  function Builtin(op: string, args: seq<Value>, st: Store, h: Host, limit: u64): Res<Value>
    requires IsPure(op) || op in EFFECTFUL
  {
    if op in EFFECTFUL then Effectful(op, args, st, h, limit) else Res(Pure(op, args, h), st)
  }

  // ---------- Evaluation ----------

  function Rank(sc: Scope): nat {
    if sc.depth <= MAX_RECURSION_DEPTH then MAX_RECURSION_DEPTH + 1 - sc.depth else 0
  }

  function Eval(e: Expr, sc: Scope, st: Store, h: Host, limit: u64): Res<Value>
    decreases Rank(sc), 0, 0
  {
    if sc.depth + 1 > MAX_RECURSION_DEPTH then Res(Err(DepthExceeded), st)
    else
      var paid := Spend(st, BASE, limit);
      if !paid.out.Ok? then Res(Err(OutOfGas), paid.st)
      else Form(e, sc.(depth := sc.depth + 1), paid.st, h, limit)
  }

  // The forms, in the scope of their parts.
  function Form(e: Expr, sc: Scope, st: Store, h: Host, limit: u64): Res<Value>
    decreases Rank(sc), 4, 0
  {
    match e
    case Literal(v) => Res(Ok(v), st)
    case Symbol(name) => Res(Lookup(name, sc.env), st)
    case App(func, args) => Application(func, args, sc, st, h, limit)
    case Let(bindings, body) => LetIn(bindings, body, sc, st, h, limit)
    case Lambda(params, _) => Res(Ok(Str(LambdaText(params))), st)
    case If(cond, thn, els) => Conditional(cond, thn, els, sc, st, h, limit)
    case Module(m) => LoadModule(m, sc, st, h, limit)
    case Defun(name, params, body, _) =>
      var f := Function(name, params, body, ModuleName(st.currentModule));
      Res(Ok(Unit), st.(functions := st.functions[FullName(st.currentModule, name) := f]))
    case Defcap(name, params, body) =>
      var f := Function(name, params, body, ModuleName(st.currentModule));
      Res(Ok(Unit), st.(capabilities := st.capabilities[FullName(st.currentModule, name) := f]))
    case Defschema(name, fields) => Res(Ok(Unit), st.(schemas := st.schemas[name := fields]))
    case Deftable(name, schema) => Res(Ok(Unit), st.(tables := st.tables[name := Table(schema, map[])]))
    case WithCapability(cap, args, body) => WithCap(cap, args, body, sc, st, h, limit)
    case RequireCapability(cap, args) => RequireCap(cap, args, sc, st, h, limit)
    case Read(table, key) => ReadRow(table, key, sc, st, h, limit)
    case Write(_, table, key, row) => WriteRow(table, key, row, sc, st, h, limit)
    case Enforce(cond, msg) => EnforceThat(cond, msg, sc, st, h, limit)
    case EnforceGuard(guard) => EnforceGuardOf(guard, sc, st, h, limit)
    case Property(_, _) => Res(Ok(Unit), st)
    case Interface(_, _) => Res(Ok(Unit), st)
  }

  function Conditional(cond: Expr, thn: Expr, els: Expr, sc: Scope, st: Store, h: Host, limit: u64): Res<Value>
    decreases Rank(sc), 1, 0
  {
    var r := Eval(cond, sc, st, h, limit);
    if !r.out.Ok? then r else Eval(if ToBool(r.out.value) then thn else els, sc, r.st, h, limit)
  }

  // Succeeds exactly inside a frame for the same capability with the same arguments.
  function RequireCap(cap: string, args: seq<Expr>, sc: Scope, st: Store, h: Host, limit: u64): Res<Value>
    decreases Rank(sc), 2, 0
  {
    var r := Args(args, sc, st, h, limit);
    if !r.out.Ok? then Res(r.out.PropagateFailure(), r.st)
    else if (cap, r.out.value) in sc.caps then Res(Ok(Boolean(true)), r.st)
    else Res(Err(CapNotInScope(cap)), r.st)
  }

  function EnforceThat(cond: Expr, msg: string, sc: Scope, st: Store, h: Host, limit: u64): Res<Value>
    decreases Rank(sc), 1, 0
  {
    var r := Eval(cond, sc, st, h, limit);
    if !r.out.Ok? then r
    else if ToBool(r.out.value) then Res(Ok(Boolean(true)), r.st) else Res(Err(EnforceFailed(msg)), r.st)
  }

  function EnforceGuardOf(guard: Expr, sc: Scope, st: Store, h: Host, limit: u64): Res<Value>
    decreases Rank(sc), 1, 0
  {
    var r := Eval(guard, sc, st, h, limit);
    if !r.out.Ok? then r else Res(CheckGuard(r.out.value, sc.caps, r.st.keysets, h), r.st)
  }

  function CheckGuard(v: Value, caps: seq<Cap>, keysets: Keysets, h: Host): Outcome<Value> {
    match v
    case GuardValue(g) => VerifyGuard(g, caps, h)
    case KeySetRef(name) =>
      if name in keysets then VerifyGuard(KeySetGuard(keysets[name].0, keysets[name].1), caps, h)
      else Err(UnknownKeyset(name))
    case _ => Err(ExpectedGuard)
  }

  // Arguments from left to right, up to the first failure.
  function Args(args: seq<Expr>, sc: Scope, st: Store, h: Host, limit: u64): Res<seq<Value>>
    decreases Rank(sc), 1, |args|
  {
    if args == [] then Res(Ok([]), st)
    else
      var r := Eval(args[0], sc, st, h, limit);
      if !r.out.Ok? then Res(r.out.PropagateFailure(), r.st)
      else
        var rest := Args(args[1..], sc, r.st, h, limit);
        if !rest.out.Ok? then rest else Res(Ok([r.out.value] + rest.out.value), rest.st)
  }

  // Each binding sees the ones before it.
  function LetIn(bindings: seq<Binding>, body: Expr, sc: Scope, st: Store, h: Host, limit: u64): Res<Value>
    decreases Rank(sc), 1, |bindings|
  {
    if bindings == [] then Eval(body, sc, st, h, limit)
    else
      var r := Eval(bindings[0].val, sc, st, h, limit);
      if !r.out.Ok? then r
      else LetIn(bindings[1..], body, sc.(env := sc.env[bindings[0].name := r.out.value]), r.st, h, limit)
  }

  function Definitions(defs: seq<Expr>, sc: Scope, st: Store, h: Host, limit: u64): Res<()>
    decreases Rank(sc), 1, |defs|
  {
    if defs == [] then Res(Ok(()), st)
    else
      var r := Eval(defs[0], sc, st, h, limit);
      if !r.out.Ok? then Res(r.out.PropagateFailure(), r.st) else Definitions(defs[1..], sc, r.st, h, limit)
  }

  function LoadModule(m: PactModule, sc: Scope, st: Store, h: Host, limit: u64): Res<Value>
    decreases Rank(sc), 2, 0
  {
    var r := Definitions(m.definitions, sc, st.(currentModule := Some(m.name)), h, limit);
    if !r.out.Ok? then Res(r.out.PropagateFailure(), r.st)
    else Res(Ok(Str("Loaded module: " + m.name)), r.st.(modules := r.st.modules[m.name := m], currentModule := None))
  }

  // A capability that is defined and not yet granted is granted by evaluating its body; then the
  // expression is evaluated inside one more capability frame.
  function WithCap(cap: string, args: seq<Expr>, body: Expr, sc: Scope, st: Store, h: Host, limit: u64): Res<Value>
    decreases Rank(sc), 3, 0
  {
    var r := Args(args, sc, st, h, limit);
    if !r.out.Ok? then Res(r.out.PropagateFailure(), r.st)
    else
      var key := (cap, r.out.value);
      var g := Acquire(key, sc, r.st, h, limit);
      if !g.out.Ok? then Res(g.out.PropagateFailure(), g.st)
      else Eval(body, sc.(caps := sc.caps + [key]), g.st, h, limit)
  }

  function Acquire(key: Cap, sc: Scope, st: Store, h: Host, limit: u64): Res<()>
    decreases Rank(sc), 1, 0
  {
    if key in st.granted || key.0 !in st.capabilities then Res(Ok(()), st)
    else
      var def := st.capabilities[key.0];
      var r := Eval(def.body, sc.(env := Bind(sc.env, def.params, key.1)), st, h, limit);
      match r.out
      case Ok(_) => Res(Ok(()), r.st.(granted := r.st.granted + [key]))
      case Err(_) => Res(Err(CapNotGranted(key.0)), r.st)
      case Panic => Res(Panic, r.st)
  }

  function ReadRow(table: string, key: Expr, sc: Scope, st: Store, h: Host, limit: u64): Res<Value>
    decreases Rank(sc), 1, 0
  {
    var paid := Spend(st, SLOAD, limit);
    if !paid.out.Ok? then Res(Err(OutOfGas), paid.st)
    else
      var r := Eval(key, sc, paid.st, h, limit);
      if !r.out.Ok? then r else Res(FindRow(table, r.out.value, r.st), r.st)
  }

  function FindRow(table: string, key: Value, st: Store): Outcome<Value> {
    var k :- AsString(key);
    if table !in st.tables then Err(TableNotFound(table))
    else if k !in st.tables[table].rows then Err(RowNotFound(k))
    else Ok(Object(st.tables[table].rows[k]))
  }

  function WriteRow(table: string, key: Expr, row: Expr, sc: Scope, st: Store, h: Host, limit: u64): Res<Value>
    decreases Rank(sc), 2, 0
  {
    var paid := Spend(st, SSTORE_SET, limit);
    if !paid.out.Ok? then Res(Err(OutOfGas), paid.st) else StoreRow(table, key, row, sc, paid.st, h, limit)
  }

  function StoreRow(table: string, key: Expr, row: Expr, sc: Scope, st: Store, h: Host, limit: u64): Res<Value>
    decreases Rank(sc), 1, 1
  {
    var r := Eval(key, sc, st, h, limit);
    if !r.out.Ok? then r
    else if !r.out.value.Str? then Res(Err(TypeError("string")), r.st)
    else StoreUnder(table, r.out.value.s, row, sc, r.st, h, limit)
  }

  function StoreUnder(table: string, key: string, row: Expr, sc: Scope, st: Store, h: Host, limit: u64): Res<Value>
    decreases Rank(sc), 1, 0
  {
    var v := Eval(row, sc, st, h, limit);
    if !v.out.Ok? then v else PutRow(table, key, v.out.value, v.st)
  }

  function PutRow(table: string, key: string, row: Value, st: Store): Res<Value> {
    if !row.Object? then Res(Err(NotAnObject), st)
    else if table !in st.tables then Res(Err(TableNotFound(table)), st)
    else if |st.tables[table].rows| >= MAX_TABLE_SIZE then Res(Err(TableFull), st)
    else
      var t := st.tables[table];
      Res(Ok(Unit), st.(tables := st.tables[table := t.(rows := t.rows[key := row.fields])]))
  }

  function Application(func: Expr, args: seq<Expr>, sc: Scope, st: Store, h: Host, limit: u64): Res<Value>
    decreases Rank(sc), 3, 0
  {
    if !func.Symbol? then
      var r := Eval(func, sc, st, h, limit);
      if !r.out.Ok? then r else Res(Err(HigherOrder), r.st)
    else
      var r := Args(args, sc, st, h, limit);
      if !r.out.Ok? then Res(r.out.PropagateFailure(), r.st)
      else if IsPure(func.symbol) || func.symbol in EFFECTFUL then Builtin(func.symbol, r.out.value, r.st, h, limit)
      else if func.symbol !in r.st.functions then Res(Err(UnknownFunction(func.symbol)), r.st)
      else Call(r.st.functions[func.symbol], r.out.value, sc, r.st, h, limit)
  }

  // Parameters are bound over the caller's environment.
  function Call(f: Function, args: seq<Value>, sc: Scope, st: Store, h: Host, limit: u64): Res<Value>
    decreases Rank(sc), 1, 0
  {
    if |args| != |f.params| then Res(Err(WrongArity(f.name, |f.params|, |args|)), st)
    else Eval(f.body, sc.(env := Bind(sc.env, f.params, args)), st, h, limit)
  }

  // Top-level expressions one after the other; the value of the last one.
  function Program(es: seq<Expr>, last: Value, st: Store, h: Host, limit: u64): Res<Value> {
    if es == [] then Res(Ok(last), st)
    else
      var r := Eval(es[0], TOP_LEVEL, st, h, limit);
      if !r.out.Ok? then r else Program(es[1..], r.out.value, r.st, h, limit)
  }
}
