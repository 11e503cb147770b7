/** The data operations of the Kaspa script VM: what each opcode does to the two stacks, the contract
    store, the log and the gas used, when it is executed. Control flow is in KaspaInterpreter. */
module KaspaOps {
  import opened Ints
  import opened Results
  import opened Gas
  import opened ScriptNumber

  const MAX_STACK_SIZE := 1000
  const MAX_ELEMENT_SIZE := 520

  datatype Error = OutOfGas | InvalidOpcode(op: u8) | StackOverflow | StackUnderflow | Exec(msg: string) | Panic

  datatype Log = Log(topic: Elem, data: Elem)

  datatype Data = Data(stack: seq<Elem>, alt: seq<Elem>, store: map<Elem, Elem>, logs: seq<Log>, used: u64)

  datatype TxInput = TxInput(scriptSig: Elem, sequence: nat, value: u64)
  datatype TxOutput = TxOutput(value: u64, scriptPubkey: Elem)
  datatype Tx = Tx(version: nat, inputs: seq<TxInput>, outputs: seq<TxOutput>, lockTime: nat, current: nat)

  // What the VM is given: the transaction, the hash functions and the signature checks.
  datatype Host = Host(
    tx: Tx,
    sha256: Elem -> Elem,
    sha3: Elem -> Elem,
    checkSig: (Elem, Elem) -> bool,
    checkMultiSig: (seq<Elem>, seq<Elem>) -> bool)

  /** A value, or an error together with the gas used when it struck. */
  datatype Res<+T> = Good(value: T) | Bad(error: Error, used: u64) {
    predicate IsFailure() {
      Bad?
    }

    function PropagateFailure<U>(): Res<U>
      requires Bad?
    {
      Bad(error, used)
    }

    function Extract(): T
      requires Good?
    {
      value
    }
  }

  // ---------- Opcodes ----------

  datatype FlowOp = Const(n: i64) | Nop | Verify | Return | Invalid(byte: u8)
  datatype StackOp =
    | ToAlt | FromAlt | Drop2 | Dup2 | Dup3 | Drop | Dup | Nip | Over | Pick | Roll | Rot | Swap | Tuck | Depth | IfDup
  datatype JoinKind = Cat | BitAnd | BitOr | BitXor | Equal | EqualVerify
  datatype CutKind = SubStr | LeftPart | RightPart
  datatype BytesOp = Cut(cut: CutKind) | Size | Invert | Join(join: JoinKind)
  datatype UnaryKind = Inc | Dec | Negate | AbsOf
  datatype BinaryKind = Add | Sub | Mul | Div | Mod | LShift | RShift | MinOf | MaxOf
  datatype CompareKind = Eq | Ne | Lt | Gt | Le | Ge
  datatype PairOp = Binary(bin: BinaryKind) | Compare(cmp: CompareKind) | NumEqualVerify
  datatype NumberOp = Unary(un: UnaryKind) | Not | NotZero | BoolAnd | BoolOr | Within | Pair(pair: PairOp)
  datatype LookupKind = OutputBytecode | InputBytecode | OutputValue | InputValue
  datatype TxOp =
    | CheckSig | CheckSigVerify | CheckMultiSig | CheckMultiSigVerify | CheckLockTime | CheckSequence
    | InputIndex | OutputCount | InputCount | TxVersion | TxLockTime | Lookup(lookup: LookupKind)
  datatype GasOp = Sha256 | Hash256 | Hash160 | StateGet | StatePut | StateDelete | EmitEvent

  datatype Op =
    | OnFlow(flow: FlowOp) | OnStack(stack: StackOp) | OnBytes(bytes: BytesOp)
    | OnNumber(number: NumberOp) | OnTx(tx: TxOp) | OnPaid(paid: GasOp)

  // `from_byte` followed by the match of `step`, for bytes that are neither pushes nor control flow.
  // Opcodes that `from_byte` knows but `step` has no case for are invalid, like the unknown ones.
  // A code separator only records the program counter in a field nothing reads, so it is a Nop here.
  function Decode(b: u8): Op {
    if b == 0x00 then OnFlow(Const(0))
    else if b == 0x4f then OnFlow(Const(-1))
    else if 0x51 <= b <= 0x60 then OnFlow(Const(b - 0x50))
    else if b < 0x6b then DecodeFlow(b)
    else if b < 0x7e then DecodeStack(b)
    else if b < 0x8b then DecodeBytes(b)
    else if b < 0xa6 then DecodeNumber(b)
    else DecodeRest(b)
  }

  function DecodeFlow(b: u8): Op {
    match b
    case 0x61 => OnFlow(Nop)
    case 0x69 => OnFlow(Verify)
    case 0x6a => OnFlow(Return)
    case _ => OnFlow(Invalid(b))
  }

  function DecodeStack(b: u8): Op {
    match b
    case 0x6b => OnStack(ToAlt)
    case 0x6c => OnStack(FromAlt)
    case 0x6d => OnStack(Drop2)
    case 0x6e => OnStack(Dup2)
    case 0x6f => OnStack(Dup3)
    case 0x73 => OnStack(IfDup)
    case 0x74 => OnStack(Depth)
    case 0x75 => OnStack(Drop)
    case 0x76 => OnStack(Dup)
    case 0x77 => OnStack(Nip)
    case 0x78 => OnStack(Over)
    case 0x79 => OnStack(Pick)
    case 0x7a => OnStack(Roll)
    case 0x7b => OnStack(Rot)
    case 0x7c => OnStack(Swap)
    case 0x7d => OnStack(Tuck)
    case _ => OnFlow(Invalid(b))
  }

  function DecodeBytes(b: u8): Op {
    match b
    case 0x7e => OnBytes(Join(Cat))
    case 0x7f => OnBytes(Cut(SubStr))
    case 0x80 => OnBytes(Cut(LeftPart))
    case 0x81 => OnBytes(Cut(RightPart))
    case 0x82 => OnBytes(Size)
    case 0x83 => OnBytes(Invert)
    case 0x84 => OnBytes(Join(BitAnd))
    case 0x85 => OnBytes(Join(BitOr))
    case 0x86 => OnBytes(Join(BitXor))
    case 0x87 => OnBytes(Join(Equal))
    case 0x88 => OnBytes(Join(EqualVerify))
    case _ => OnFlow(Invalid(b))
  }

  function DecodeNumber(b: u8): Op {
    match b
    case 0x8b => OnNumber(Unary(Inc))
    case 0x8c => OnNumber(Unary(Dec))
    case 0x8f => OnNumber(Unary(Negate))
    case 0x90 => OnNumber(Unary(AbsOf))
    case 0x91 => OnNumber(Not)
    case 0x92 => OnNumber(NotZero)
    case 0x93 => OnNumber(Pair(Binary(Add)))
    case 0x94 => OnNumber(Pair(Binary(Sub)))
    case 0x95 => OnNumber(Pair(Binary(Mul)))
    case 0x96 => OnNumber(Pair(Binary(Div)))
    case 0x97 => OnNumber(Pair(Binary(Mod)))
    case 0x98 => OnNumber(Pair(Binary(LShift)))
    case 0x99 => OnNumber(Pair(Binary(RShift)))
    case 0x9a => OnNumber(BoolAnd)
    case 0x9b => OnNumber(BoolOr)
    case 0x9c => OnNumber(Pair(Compare(Eq)))
    case 0x9d => OnNumber(Pair(NumEqualVerify))
    case 0x9e => OnNumber(Pair(Compare(Ne)))
    case 0x9f => OnNumber(Pair(Compare(Lt)))
    case 0xa0 => OnNumber(Pair(Compare(Gt)))
    case 0xa1 => OnNumber(Pair(Compare(Le)))
    case 0xa2 => OnNumber(Pair(Compare(Ge)))
    case 0xa3 => OnNumber(Pair(Binary(MinOf)))
    case 0xa4 => OnNumber(Pair(Binary(MaxOf)))
    case 0xa5 => OnNumber(Within)
    case _ => OnFlow(Invalid(b))
  }

  function DecodeRest(b: u8): Op {
    match b
    case 0xa8 => OnPaid(Sha256)
    case 0xa9 => OnPaid(Hash160)
    case 0xaa => OnPaid(Hash256)
    case 0xab => OnFlow(Nop)
    case 0xac => OnTx(CheckSig)
    case 0xad => OnTx(CheckSigVerify)
    case 0xae => OnTx(CheckMultiSig)
    case 0xaf => OnTx(CheckMultiSigVerify)
    case 0xb1 => OnTx(CheckLockTime)
    case 0xb2 => OnTx(CheckSequence)
    case 0xc0 => OnTx(InputIndex)
    case 0xc1 => OnTx(Lookup(OutputBytecode))
    case 0xc2 => OnTx(Lookup(InputBytecode))
    case 0xc3 => OnTx(Lookup(OutputValue))
    case 0xc4 => OnTx(Lookup(InputValue))
    case 0xc5 => OnTx(OutputCount)
    case 0xc6 => OnTx(InputCount)
    case 0xc7 => OnTx(TxVersion)
    case 0xc8 => OnTx(TxLockTime)
    case 0xd0 => OnPaid(StateGet)
    case 0xd1 => OnPaid(StatePut)
    case 0xd2 => OnPaid(StateDelete)
    case 0xd3 => OnPaid(EmitEvent)
    case _ => OnFlow(Invalid(b))
  }

  // ---------- Primitives ----------

  function Truth(b: bool): Elem {
    if b then [1] else []
  }

  function Fail<T>(d: Data, e: Error): Res<T> {
    Bad(e, d.used)
  }

  // The k-th element from the top.
  function Top(s: seq<Elem>, k: nat): Elem
    requires k < |s|
  {
    s[|s| - 1 - k]
  }

  function Push(d: Data, e: Elem): Res<Data> {
    if |d.stack| >= MAX_STACK_SIZE then Fail(d, StackOverflow)
    else if |e| > MAX_ELEMENT_SIZE then Fail(d, Exec("Element size exceeded"))
    else Good(d.(stack := d.stack + [e]))
  }

  predicate Short(e: Elem) {
    |e| <= MAX_ELEMENT_SIZE
  }

  predicate AllShort(s: seq<Elem>) {
    forall i :: 0 <= i < |s| ==> Short(s[i])
  }

  // Elements were taken from the main stack and nothing else happened.
  predicate Taken(d: Data, d1: Data) {
    && |d1.stack| <= |d.stack|
    && (AllShort(d.stack) ==> AllShort(d1.stack))
    && d1 == d.(stack := d1.stack)
  }

  // The outcome of taking elements; the only errors are those of reading, at no cost.
  predicate TakesOnly<T>(d: Data, r: Res<(T, Data)>) {
    match r
    case Good((_, d1)) => Taken(d, d1)
    case Bad(e, used) => !e.StackOverflow? && !e.Panic? && used == d.used
  }

  function Pop(d: Data): (r: Res<(Elem, Data)>)
    ensures TakesOnly(d, r)
    ensures r.Good? && AllShort(d.stack) ==> Short(r.value.0)
    ensures r.Good? ==> |r.value.1.stack| == |d.stack| - 1
  {
    var n := |d.stack|;
    if n == 0 then Fail(d, StackUnderflow) else Good((d.stack[n - 1], d.(stack := d.stack[..n - 1])))
  }

  function Number(e: Elem, used: u64): Res<i64> {
    match ToI64(e)
    case Ok(v) => Good(v)
    case Err(_) => Bad(Exec("Script number overflow"), used)
  }

  function PopNumber(d: Data): (r: Res<(i64, Data)>)
    ensures TakesOnly(d, r)
    ensures r.Good? ==> |r.value.1.stack| == |d.stack| - 1 && r.value.0 > -I64_HALF
  {
    var (e, d1) :- Pop(d);
    var v :- Number(e, d.used);
    Good((v, d1))
  }

  function Spend(d: Data, amount: nat, limit: u64): Res<Data> {
    if Fits(d.used, amount, limit) then Good(d.(used := SatAdd(d.used, amount))) else Bad(OutOfGas, limit)
  }

  // ---------- Operations ----------

  function Apply(op: Op, d: Data, h: Host, limit: u64): Res<Data> {
    match op
    case OnFlow(f) => ApplyFlow(f, d)
    case OnStack(s) => ApplyStack(s, d)
    case OnBytes(b) => ApplyBytes(b, d)
    case OnNumber(n) => ApplyNumber(n, d)
    case OnTx(t) => ApplyTx(t, d, h)
    case OnPaid(g) => ApplyPaid(g, d, h, limit)
  }

  function ApplyFlow(op: FlowOp, d: Data): Res<Data> {
    match op
    case Const(n) => Push(d, FromI64(n))
    case Nop => Good(d)
    case Verify =>
      var (e, d1) :- Pop(d);
      if IsTrue(e) then Good(d1) else Fail(d, Exec("OP_VERIFY failed"))
    case Return => Fail(d, Exec("OP_RETURN encountered"))
    case Invalid(b) => Fail(d, InvalidOpcode(b))
  }

  function ApplyStack(op: StackOp, d: Data): Res<Data> {
    var s, n := d.stack, |d.stack|;
    match op
    case ToAlt =>
      var (e, d1) :- Pop(d);
      Good(d1.(alt := d.alt + [e]))
    case FromAlt =>
      if d.alt == [] then Fail(d, Exec("Alt stack underflow"))
      else Push(d.(alt := d.alt[..|d.alt| - 1]), Top(d.alt, 0))
    case Drop => if n < 1 then Fail(d, StackUnderflow) else Good(d.(stack := s[..n - 1]))
    case Drop2 => if n < 2 then Fail(d, StackUnderflow) else Good(d.(stack := s[..n - 2]))
    case Dup => CopyTop(d, 1)
    case Dup2 => CopyTop(d, 2)
    case Dup3 => CopyTop(d, 3)
    case Nip => if n < 2 then Fail(d, StackUnderflow) else Good(d.(stack := s[..n - 2] + [s[n - 1]]))
    case Over => if n < 2 then Fail(d, StackUnderflow) else Push(d, s[n - 2])
    case Rot =>
      if n < 3 then Fail(d, StackUnderflow)
      else Good(d.(stack := s[..n - 3] + [s[n - 2], s[n - 1], s[n - 3]]))
    case Swap => if n < 2 then Fail(d, StackUnderflow) else Good(d.(stack := s[..n - 2] + [s[n - 1], s[n - 2]]))
    case Tuck =>
      // `insert` bypasses `push`, so this is the one copy without a size check.
      if n < 2 then Fail(d, StackUnderflow) else Good(d.(stack := s[..n - 2] + [s[n - 1], s[n - 2], s[n - 1]]))
    case Pick =>
      var (k, d1) :- PopNumber(d);
      var i := WrapU64(k);
      if i >= n - 1 then Fail(d, StackUnderflow) else Push(d1, Top(d1.stack, i))
    case Roll =>
      var (k, d1) :- PopNumber(d);
      var i := WrapU64(k);
      if i >= n - 1 then Fail(d, StackUnderflow)
      else Push(d1.(stack := d1.stack[..n - 2 - i] + d1.stack[n - 1 - i..]), Top(d1.stack, i))
    case Depth => Push(d, FromI64(WrapI64(n)))
    case IfDup => if n > 0 && IsTrue(s[n - 1]) then Push(d, s[n - 1]) else Good(d)
  }

  // The top k elements pushed again, in order.
  function CopyTop(d: Data, k: nat): Res<Data>
    requires k <= 3
  {
    var n := |d.stack|;
    if n < k then Fail(d, StackUnderflow) else PushAll(d, d.stack[n - k..])
  }

  function PushAll(d: Data, es: seq<Elem>): Res<Data>
    decreases |es|
  {
    if es == [] then Good(d)
    else
      var d1 :- Push(d, es[0]);
      PushAll(d1, es[1..])
  }

  function ApplyBytes(op: BytesOp, d: Data): Res<Data> {
    match op
    case Size => if d.stack == [] then Fail(d, StackUnderflow) else Push(d, FromI64(WrapI64(|Top(d.stack, 0)|)))
    case Invert =>
      var (a, d1) :- Pop(d);
      Push(d1, seq(|a|, i requires 0 <= i < |a| => 255 - a[i]))
    case Cut(k) => ApplyCut(k, d)
    case Join(k) =>
      var (b, d1) :- Pop(d);
      var (a, d2) :- Pop(d1);
      ApplyJoin(k, a, b, d2)
  }

  function ApplyCut(op: CutKind, d: Data): Res<Data> {
    match op
    case SubStr =>
      var (size, d1) :- PopNumber(d);
      var (begin, d2) :- PopNumber(d1);
      var (s, d3) :- Pop(d2);
      // usize addition wraps; a wrapped sum can pass the check, but the slice then panics.
      var end := WrapU64(WrapU64(begin) + WrapU64(size));
      if end > |s| then Fail(d, Exec("Substring out of range"))
      else if WrapU64(begin) > end then Fail(d, Panic)
      else Push(d3, s[WrapU64(begin)..end])
    case LeftPart =>
      var (size, d1) :- PopNumber(d);
      var (s, d2) :- Pop(d1);
      if WrapU64(size) > |s| then Fail(d, Exec("Left size out of range")) else Push(d2, s[..WrapU64(size)])
    case RightPart =>
      var (size, d1) :- PopNumber(d);
      var (s, d2) :- Pop(d1);
      if WrapU64(size) > |s| then Fail(d, Exec("Right size out of range"))
      else Push(d2, s[|s| - WrapU64(size)..])
  }

  function ApplyJoin(op: JoinKind, a: Elem, b: Elem, d: Data): Res<Data> {
    match op
    case Cat => if |a + b| > MAX_ELEMENT_SIZE then Fail(d, Exec("Element size exceeded")) else Push(d, a + b)
    case Equal => Push(d, Truth(a == b))
    case EqualVerify => if a == b then Good(d) else Fail(d, Exec("OP_EQUALVERIFY failed"))
    case BitAnd => Push(d, Zip(a, b, AndByte))
    case BitOr => Push(d, Zip(a, b, OrByte))
    case BitXor => Push(d, Zip(a, b, XorByte))
  }

  // Bytewise, cut to the shorter operand.
  function Zip(a: Elem, b: Elem, f: (u8, u8) -> u8): (r: Elem)
    ensures |r| == Min(|a|, |b|)
  {
    seq(Min(|a|, |b|), i requires 0 <= i < |a| && i < |b| => f(a[i], b[i]))
  }

  function AndByte(x: u8, y: u8): u8 {
    ((x as bv8) & (y as bv8)) as int
  }

  function OrByte(x: u8, y: u8): u8 {
    ((x as bv8) | (y as bv8)) as int
  }

  function XorByte(x: u8, y: u8): u8 {
    ((x as bv8) ^ (y as bv8)) as int
  }

  function ApplyNumber(op: NumberOp, d: Data): Res<Data> {
    match op
    case Unary(k) =>
      var (a, d1) :- PopNumber(d);
      Push(d1, FromI64(UnaryValue(k, a)))
    case Not =>
      var (a, d1) :- Pop(d);
      Push(d1, Truth(!IsTrue(a)))
    case NotZero =>
      var (a, d1) :- PopNumber(d);
      Push(d1, Truth(a != 0))
    case BoolAnd =>
      var (b, d1) :- Pop(d);
      var (a, d2) :- Pop(d1);
      Push(d2, Truth(IsTrue(a) && IsTrue(b)))
    case BoolOr =>
      var (b, d1) :- Pop(d);
      var (a, d2) :- Pop(d1);
      Push(d2, Truth(IsTrue(a) || IsTrue(b)))
    case Within =>
      var (max, d1) :- PopNumber(d);
      var (min, d2) :- PopNumber(d1);
      var (x, d3) :- PopNumber(d2);
      Push(d3, Truth(min <= x < max))
    case Pair(k) =>
      var (b, d1) :- PopNumber(d);
      var (a, d2) :- PopNumber(d1);
      ApplyPair(k, a, b, d2)
  }

  function ApplyPair(op: PairOp, a: i64, b: i64, d: Data): Res<Data> {
    match op
    case Compare(k) => Push(d, Truth(Holds(k, a, b)))
    case NumEqualVerify => if a == b then Good(d) else Fail(d, Exec("OP_NUMEQUALVERIFY failed"))
    case Binary(k) =>
      var v :- BinaryValue(k, a, b, d.used);
      Push(d, FromI64(v))
  }

  function UnaryValue(k: UnaryKind, a: i64): i64 {
    match k
    case Inc => WrapI64(a + 1)
    case Dec => WrapI64(a - 1)
    case Negate => WrapI64(0 - a)
    case AbsOf => WrapI64(Abs(a))
  }

  // i64 arithmetic that wraps; shift amounts are taken modulo 64. Only division does not wrap but panics.
  function BinaryValue(k: BinaryKind, a: i64, b: i64, used: u64): Res<i64> {
    match k
    case Add => Good(WrapI64(a + b))
    case Sub => Good(WrapI64(a - b))
    case Mul => Good(WrapI64(a * b))
    case Div =>
      if b == 0 then Bad(Exec("Division by zero"), used)
      else if a == -I64_HALF && b == -1 then Bad(Panic, used)
      else Good(WrapI64(TruncDiv(a, b)))
    case Mod =>
      if b == 0 then Bad(Exec("Modulo by zero"), used)
      else if a == -I64_HALF && b == -1 then Bad(Panic, used)
      else Good(WrapI64(TruncMod(a, b)))
    case LShift => Good(WrapI64(a * Pow2(b % 64)))
    case RShift => Good(WrapI64(a / Pow2(b % 64)))
    case MinOf => Good(if a <= b then a else b)
    case MaxOf => Good(if a <= b then b else a)
  }

  predicate Holds(k: CompareKind, a: i64, b: i64) {
    match k
    case Eq => a == b
    case Ne => a != b
    case Lt => a < b
    case Gt => a > b
    case Le => a <= b
    case Ge => a >= b
  }

  function ApplyTx(op: TxOp, d: Data, h: Host): Res<Data> {
    match op
    case CheckSig =>
      var (key, d1) :- Pop(d);
      var (sig, d2) :- Pop(d1);
      Push(d2, Truth(h.checkSig(sig, key)))
    case CheckSigVerify =>
      var (key, d1) :- Pop(d);
      var (sig, d2) :- Pop(d1);
      if h.checkSig(sig, key) then Good(d2) else Fail(d, Exec("Signature verification failed"))
    case CheckMultiSig =>
      var (ok, d1) :- MultiSig(d, h);
      Push(d1, Truth(ok))
    case CheckMultiSigVerify =>
      var (ok, d1) :- MultiSig(d, h);
      if ok then Good(d1) else Fail(d, Exec("MultiSig verification failed"))
    case CheckLockTime =>
      var t :- Peek(d);
      if t < 0 then Fail(d, Exec("Negative locktime"))
      else if h.tx.lockTime < t then Fail(d, Exec("Locktime not satisfied"))
      else Good(d)
    case CheckSequence =>
      var q :- Peek(d);
      if q < 0 then Fail(d, Exec("Negative sequence"))
      else if h.tx.current < |h.tx.inputs| && h.tx.inputs[h.tx.current].sequence < q
      then Fail(d, Exec("Sequence not satisfied"))
      else Good(d)
    case InputIndex => Push(d, FromI64(WrapI64(h.tx.current)))
    case OutputCount => Push(d, FromI64(WrapI64(|h.tx.outputs|)))
    case InputCount => Push(d, FromI64(WrapI64(|h.tx.inputs|)))
    case TxVersion => Push(d, FromI64(WrapI64(h.tx.version)))
    case TxLockTime => Push(d, FromI64(WrapI64(h.tx.lockTime)))
    case Lookup(k) =>
      var (i, d1) :- PopNumber(d);
      Push(d1, LookUp(k, WrapU64(i), h.tx))
  }

  function Peek(d: Data): Res<i64> {
    if d.stack == [] then Fail(d, StackUnderflow) else Number(Top(d.stack, 0), d.used)
  }

  function LookUp(k: LookupKind, i: u64, tx: Tx): Elem {
    match k
    case OutputBytecode => if i < |tx.outputs| then tx.outputs[i].scriptPubkey else []
    case InputBytecode => if i < |tx.inputs| then tx.inputs[i].scriptSig else []
    case OutputValue => FromI64(if i < |tx.outputs| then WrapI64(tx.outputs[i].value) else 0)
    case InputValue => FromI64(if i < |tx.inputs| then WrapI64(tx.inputs[i].value) else 0)
  }

  // Keys, signatures and one spare element, each group topped by its count.
  function MultiSig(d: Data, h: Host): (r: Res<(bool, Data)>)
    ensures TakesOnly(d, r)
  {
    var (n, d1) :- PopNumber(d);
    var (keys, d2) :- PopMany(d1, WrapU64(n));
    var (m, d3) :- PopNumber(d2);
    var (sigs, d4) :- PopMany(d3, WrapU64(m));
    var (_, d5) :- Pop(d4);
    Good((h.checkMultiSig(sigs, keys), d5))
  }

  // The top n elements, topmost first.
  function PopMany(d: Data, n: nat): (r: Res<(seq<Elem>, Data)>)
    ensures TakesOnly(d, r)
    decreases n
  {
    if n == 0 then Good(([], d))
    else
      var (e, d1) :- Pop(d);
      var (es, d2) :- PopMany(d1, n - 1);
      Good(([e] + es, d2))
  }

  function ApplyPaid(op: GasOp, d: Data, h: Host, limit: u64): Res<Data> {
    match op
    case Sha256 =>
      var (e, d1) :- PayToHash(d, limit);
      Push(d1, h.sha256(e))
    case Hash256 =>
      var (e, d1) :- PayToHash(d, limit);
      Push(d1, h.sha256(h.sha256(e)))
    case Hash160 =>
      var d1 :- Spend(d, SHA3_BASE, limit);
      var (e, d2) :- Pop(d1);
      Push(d2, h.sha256(e)[..Min(20, |h.sha256(e)|)])
    case StateGet =>
      var d1 :- Spend(d, SLOAD, limit);
      var (key, d2) :- Pop(d1);
      Push(d2, if key in d.store then d.store[key] else [])
    case StatePut =>
      var d1 :- Spend(d, SSTORE_SET, limit);
      var (value, d2) :- Pop(d1);
      var (key, d3) :- Pop(d2);
      Good(d3.(store := d.store[key := value]))
    case StateDelete =>
      var d1 :- Spend(d, SSTORE_RESET, limit);
      var (key, d2) :- Pop(d1);
      Good(d2.(store := d.store - {key}))
    case EmitEvent =>
      var d1 :- Spend(d, LOG, limit);
      var (data, d2) :- Pop(d1);
      var (topic, d3) :- Pop(d2);
      var d4 :- Spend(d3, LOG_DATA * |data|, limit);
      Good(d4.(logs := d.logs + [Log(h.sha3(topic), data)]))
  }

  function PayToHash(d: Data, limit: u64): Res<(Elem, Data)> {
    var d1 :- Spend(d, SHA3_BASE, limit);
    var (e, d2) :- Pop(d1);
    var d3 :- Spend(d2, SHA3_WORD * Words(|e|), limit);
    Good((e, d3))
  }
}
