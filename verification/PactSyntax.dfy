/** Values, expressions and definitions of the Pact dialect of `pact.rs`. */
module PactSyntax {
  import opened Ints
  import opened Wrappers

  datatype Value =
    | Integer(n: i128)
    | Decimal(mantissa: i128, decimals: u8)
    | Str(s: string)
    | Boolean(b: bool)
    | List(items: seq<Value>)
    | Object(fields: map<string, Value>)
    | GuardValue(guard: Guard)
    | ModRef(name: string)
    | CapToken(capName: string, capArgs: seq<Value>)
    | Unit
    | Time(seconds: i64)
    | KeySetRef(keyset: string)

  datatype Guard =
    | KeySetGuard(keys: seq<string>, pred: KeysetPred)
    | UserGuard(mod: string, fun: string)
    | CapabilityGuard(cap: string, args: seq<Value>)
    | PactGuard(id: string)

  datatype KeysetPred = KeysAll | KeysAny | Keys2 | Custom(name: string)

  datatype WriteKind = Overwrite | InsertRow | UpdateRow

  datatype Expr =
    | Literal(value: Value)
    | Symbol(symbol: string)
    | App(func: Expr, args: seq<Expr>)
    | Let(bindings: seq<Binding>, body: Expr)
    | Lambda(params: seq<string>, body: Expr)
    | If(cond: Expr, thn: Expr, els: Expr)
    | Module(mod: PactModule)
    | Interface(iname: string, members: seq<Expr>)
    | Defun(fname: string, params: seq<string>, body: Expr, doc: Option<string>)
    | Defcap(cname: string, params: seq<string>, body: Expr)
    | Defschema(sname: string, fields: seq<(string, string)>)
    | Deftable(tname: string, schema: string)
    | WithCapability(cap: string, args: seq<Expr>, body: Expr)
    | RequireCapability(cap: string, args: seq<Expr>)
    | Read(table: string, key: Expr)
    | Write(kind: WriteKind, table: string, key: Expr, row: Expr)
    | Enforce(cond: Expr, msg: string)
    | EnforceGuard(guard: Expr)
    | Property(pname: string, prop: Expr)

  datatype Binding = Binding(name: string, val: Expr)

  datatype PactModule = PactModule(name: string, governance: Governance, definitions: seq<Expr>)

  datatype Governance = ByKeyset(name: string) | ByCapability(name: string)
}
