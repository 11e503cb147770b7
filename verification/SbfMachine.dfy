/** The register machine of `sbf.rs`: instructions and their decoding, memory access, and what one step
    computes, with the wrap-around of a release build. A Rust panic is an outcome of its own. */
module SbfMachine {
  import opened Ints
  import opened Wrappers
  import opened Gas
  import opened Arithmetic
  import opened LittleEndian

  const NUM_REGISTERS := 11
  const STACK_SIZE := 4096
  const HEAP_SIZE := 0x8000
  const MAX_CALL_DEPTH := 64

  type i16 = x: int | -0x8000 <= x < 0x8000
  type i32 = x: int | -0x8000_0000 <= x < 0x8000_0000
  type u4 = x: int | 0 <= x < 16

  datatype Inst = Inst(opcode: u8, dst: u4, src: u4, offset: i16, imm: i32)

  datatype Error =
    | OutOfGas | DivisionByZero | ModuloByZero | InvalidMemoryAccess(address: u64) | StackOverflow
    | InvalidOpcode(opcode: u8)

  datatype Status = Running | Exited | Failed(error: Error) | Panicked

  datatype State = State(regs: seq<u64>, pc: u64, heap: seq<u8>, calls: seq<u64>, used: u64, logs: seq<seq<u8>>)

  predicate Shaped(st: State) {
    |st.regs| == NUM_REGISTERS && |st.heap| == HEAP_SIZE
  }

  // ---------- Decoding ----------

  function Signed(v: nat, n: nat): int {
    if v < Pow256(n) / 2 then v else v - Pow256(n)
  }

  lemma SignedRange(bytes: seq<u8>)
    requires bytes != []
    ensures 0 - Pow256(|bytes|) / 2 <= Signed(LeValue(bytes), |bytes|) < Pow256(|bytes|) / 2
  {
    LeBytesOfValue(bytes);
  }

  function Decode(bytes: seq<u8>): (i: Option<Inst>)
    ensures i.Some? <==> |bytes| >= 8
  {
    if |bytes| < 8 then None
    else
      SignedRange(bytes[2..4]);
      SignedRange(bytes[4..8]);
      assert Pow256(2) == 0x1_0000 && Pow256(4) == 0x1_0000_0000;
      Some(Inst(bytes[0], bytes[1] % 16, bytes[1] / 16, Signed(LeValue(bytes[2..4]), 2),
                Signed(LeValue(bytes[4..8]), 4)))
  }

  // The instructions of a code section; a rest of fewer than eight bytes is dropped.
  function DecodeAll(code: seq<u8>): seq<Inst> {
    if |code| < 8 then [] else [Decode(code).value] + DecodeAll(code[8..])
  }

  const ELF_MAGIC: seq<u8> := [0x7f, 'E' as u8, 'L' as u8, 'F' as u8]

  // `mov64 r0, 0` and `exit`, for an empty code section.
  const EMPTY_PROGRAM: seq<Inst> := [Inst(0xb7, 0, 0, 0, 0), Inst(0x95, 0, 0, 0, 0)]

  function Parse(bytecode: seq<u8>): Option<seq<Inst>> {
    if |bytecode| < 4 || bytecode[..4] != ELF_MAGIC then None
    else
      var insts := DecodeAll(bytecode[Min(64, |bytecode|)..]);
      Some(if insts == [] then EMPTY_PROGRAM else insts)
  }

  // ---------- Memory ----------

  datatype Access<+T> = Done(value: T) | Invalid | Overflow

  // Whether an access lies within memory; the end of the access wraps around, and then the slice panics.
  function Check(size: u64, addr: u64, width: u64): Access<()> {
    if WrapU64(addr + width) > size then Invalid
    else if addr + width > size then Overflow
    else Done(())
  }

  // Single bytes are looked up without computing an end.
  function Bounds(size: u64, addr: u64, width: u64): Access<()> {
    if width == 1 then (if addr < size then Done(()) else Invalid) else Check(size, addr, width)
  }

  function Load(heap: seq<u8>, addr: u64, width: u64): (r: Access<nat>)
    requires |heap| < U64 && width > 0
    ensures r.Done? <==> addr + width <= |heap|
  {
    match Bounds(|heap|, addr, width)
    case Done(_) => Done(LeValue(heap[addr..addr + width]))
    case Invalid => Invalid
    case Overflow => Overflow
  }

  // Writing keeps the low bytes of the value.
  function Store(heap: seq<u8>, addr: u64, width: u64, value: u64): (r: Access<seq<u8>>)
    requires |heap| < U64 && width > 0
    ensures r.Done? <==> addr + width <= |heap|
    ensures r.Done? ==> |r.value| == |heap|
  {
    match Bounds(|heap|, addr, width)
    case Done(_) => Done(heap[..addr] + LeBytes(value, width) + heap[addr + width..])
    case Invalid => Invalid
    case Overflow => Overflow
  }

  // ---------- Arithmetic ----------

  function Or64(x: u64, y: u64): u64 {
    ((x as bv64) | (y as bv64)) as u64
  }

  function And64(x: u64, y: u64): u64 {
    ((x as bv64) & (y as bv64)) as u64
  }

  function Xor64(x: u64, y: u64): u64 {
    ((x as bv64) ^ (y as bv64)) as u64
  }

  // Shifts use the low six bits of their count.
  function ShiftLeft(x: u64, count: u64): u64 {
    WrapU64(x * Pow2(count % 64))
  }

  function ShiftRight(x: u64, count: u64): u64 {
    Quotient(x, Pow2(count % 64))
  }

  // The operation that the high half of an opcode selects.
  function Alu(operation: nat, x: u64, y: u64): u64
    requires operation == 3 || operation == 9 ==> y != 0
  {
    if operation == 0 then WrapU64(x + y)
    else if operation == 1 then WrapU64(x - y)
    else if operation == 2 then WrapU64(x * y)
    else if operation == 3 then x / y
    else if operation == 4 then Or64(x, y)
    else if operation == 5 then And64(x, y)
    else if operation == 6 then ShiftLeft(x, y)
    else if operation == 7 then ShiftRight(x, y)
    else if operation == 8 then WrapU64(0 - x)
    else if operation == 9 then x % y
    else if operation == 0xa then Xor64(x, y)
    else y
  }

  // ---------- Opcodes ----------

  const ALU_IMM: set<u8> := {0x07, 0x17, 0x27, 0x37, 0x47, 0x57, 0x67, 0x77, 0x87, 0x97, 0xa7, 0xb7}
  const ALU_REG: set<u8> := {0x0f, 0x1f, 0x2f, 0x3f, 0xbf}

  // The width of a load, of a store, or zero.
  function LoadWidth(opcode: u8): u64 {
    match opcode
    case 0x71 => 1
    case 0x69 => 2
    case 0x61 => 4
    case 0x79 => 8
    case _ => 0
  }

  function StoreWidth(opcode: u8): u64 {
    match opcode
    case 0x72 => 1 case 0x73 => 1
    case 0x6a => 2 case 0x6b => 2
    case 0x62 => 4 case 0x63 => 4
    case 0x7a => 8 case 0x7b => 8
    case _ => 0
  }

  const JUMPS: set<u8> := {0x05, 0x15, 0x1d, 0x25, 0x35, 0x55, 0xa5, 0xb5}

  predicate Taken(opcode: u8, x: u64, y: u64) {
    match opcode
    case 0x15 => x == y
    case 0x1d => x == y
    case 0x25 => x > y
    case 0x35 => x >= y
    case 0x55 => x != y
    case 0xa5 => x < y
    case 0xb5 => x <= y
    case _ => true
  }

  // ---------- One step ----------

  type Next = (State, Status)

  function Spend(st: State, amount: u64, limit: u64): State {
    st.(used := if Fits(st.used, amount, limit) then SatAdd(st.used, amount) else limit)
  }

  function AluStep(i: Inst, st: State): Next
    requires Shaped(st)
  {
    if i.opcode in ALU_REG && i.src >= NUM_REGISTERS then (st, Panicked)
    else
      var y: u64 := if i.opcode in ALU_REG then st.regs[i.src] else WrapU64(i.imm);
      if i.opcode / 16 == 3 && y == 0 then (st, Failed(DivisionByZero))
      else if i.opcode / 16 == 9 && y == 0 then (st, Failed(ModuloByZero))
      else if i.dst >= NUM_REGISTERS then (st, Panicked)
      else (st.(regs := st.regs[i.dst := Alu(i.opcode / 16, st.regs[i.dst], y)]), Running)
  }

  function AccessCost(width: u64): u64 {
    if width == 8 then LOW else VERY_LOW
  }

  function LoadStep(i: Inst, st: State, limit: u64): Next
    requires Shaped(st) && LoadWidth(i.opcode) > 0
  {
    var width := LoadWidth(i.opcode);
    if i.src >= NUM_REGISTERS then (st, Panicked)
    else if !Fits(st.used, AccessCost(width), limit) then (Spend(st, AccessCost(width), limit), Failed(OutOfGas))
    else
      var st1 := Spend(st, AccessCost(width), limit);
      var addr := WrapU64(st.regs[i.src] + i.offset);
      match Load(st.heap, addr, width)
      case Invalid => (st1, Failed(InvalidMemoryAccess(addr)))
      case Overflow => (st1, Panicked)
      case Done(v) =>
        if i.dst >= NUM_REGISTERS then (st1, Panicked) else (st1.(regs := st.regs[i.dst := WrapU64(v)]), Running)
  }

  function StoreStep(i: Inst, st: State, limit: u64): Next
    requires Shaped(st) && StoreWidth(i.opcode) > 0
  {
    var width := StoreWidth(i.opcode);
    if i.dst >= NUM_REGISTERS || (i.opcode % 2 == 1 && i.src >= NUM_REGISTERS) then (st, Panicked)
    else if !Fits(st.used, AccessCost(width), limit) then (Spend(st, AccessCost(width), limit), Failed(OutOfGas))
    else
      var st1 := Spend(st, AccessCost(width), limit);
      var addr := WrapU64(st.regs[i.dst] + i.offset);
      var value := if i.opcode % 2 == 1 then st.regs[i.src] else WrapU64(i.imm);
      match Store(st.heap, addr, width, value)
      case Invalid => (st1, Failed(InvalidMemoryAccess(addr)))
      case Overflow => (st1, Panicked)
      case Done(heap) => (st1.(heap := heap), Running)
  }

  // `st.pc` is already behind the jump.
  function JumpStep(i: Inst, st: State): Next
    requires Shaped(st)
  {
    var target := WrapU64(st.pc + i.offset);
    if i.opcode == 0x05 then (st.(pc := target), Running)
    else if i.dst >= NUM_REGISTERS || (i.opcode == 0x1d && i.src >= NUM_REGISTERS) then (st, Panicked)
    else
      var y := if i.opcode == 0x1d then st.regs[i.src] else WrapU64(i.imm);
      (if Taken(i.opcode, st.regs[i.dst], y) then st.(pc := target) else st, Running)
  }

  function CallStep(i: Inst, st: State, limit: u64): Next
    requires Shaped(st)
  {
    var st1 := Spend(st, CALL, limit);
    if !Fits(st.used, CALL, limit) then (st1, Failed(OutOfGas))
    else if |st.calls| >= MAX_CALL_DEPTH then (st1, Failed(StackOverflow))
    else if i.imm == 1 then LogStep(st1)
    else if i.imm == 2 then
      if !Fits(st1.used, SHA3_BASE, limit) then (Spend(st1, SHA3_BASE, limit), Failed(OutOfGas))
      else (Spend(st1, SHA3_BASE, limit).(regs := st1.regs[0 := 0]), Running)
    else (st1.(calls := st1.calls + [st1.pc], pc := WrapU64(i.imm)), Running)
  }

  // Logs the bytes that registers 1 and 2 select; a range outside memory is ignored.
  function LogStep(st: State): Next
    requires Shaped(st)
  {
    var addr, size := st.regs[1], st.regs[2];
    match Check(HEAP_SIZE, addr, size)
    case Done(_) => (st.(logs := st.logs + [st.heap[addr..addr + size]], regs := st.regs[0 := 0]), Running)
    case Invalid => (st.(regs := st.regs[0 := 0]), Running)
    case Overflow => (st, Panicked)
  }

  function ExitStep(st: State): Next {
    if st.calls == [] then (st, Exited)
    else (st.(pc := st.calls[|st.calls| - 1], calls := st.calls[..|st.calls| - 1]), Running)
  }

  function Dispatch(i: Inst, st: State, limit: u64): Next
    requires Shaped(st)
  {
    if i.opcode in ALU_IMM || i.opcode in ALU_REG then AluStep(i, st)
    else if LoadWidth(i.opcode) > 0 then LoadStep(i, st, limit)
    else if StoreWidth(i.opcode) > 0 then StoreStep(i, st, limit)
    else if i.opcode in JUMPS then JumpStep(i, st)
    else if i.opcode == 0x85 then CallStep(i, st, limit)
    else if i.opcode == 0x95 then ExitStep(st)
    else (st, Failed(InvalidOpcode(i.opcode)))
  }

  // Every step keeps the sizes of registers and memory, and spends gas: at least BASE while it keeps
  // running under a limit that the counter cannot saturate at.
  function Step(program: seq<Inst>, st: State, limit: u64): (next: Next)
    requires Shaped(st) && st.pc < |program| < U64
    ensures Shaped(next.0)
    ensures next.1 == Running && limit < U64_MAX ==> st.used + BASE <= next.0.used <= limit
  {
    var st1 := Spend(st, BASE, limit).(pc := st.pc + 1);
    if !Fits(st.used, BASE, limit) then (st1, Failed(OutOfGas)) else Dispatch(program[st.pc], st1, limit)
  }

  // ---------- Runs ----------

  // A new machine.
  function Fresh(): (st: State)
    ensures Shaped(st)
  {
    State(seq(NUM_REGISTERS, _ => 0), 0, seq(HEAP_SIZE, _ => 0), [], 0, [])
  }

  // At most n steps; a program counter behind the program ends the run like an exit.
  function RunFor(program: seq<Inst>, st: State, limit: u64, n: nat): (next: Next)
    requires Shaped(st) && |program| < U64
    ensures Shaped(next.0)
    decreases n
  {
    if st.pc >= |program| then (st, Exited)
    else if n == 0 then (st, Running)
    else
      var (st1, status) := Step(program, st, limit);
      if status == Running then RunFor(program, st1, limit, n - 1) else (st1, status)
  }

  lemma {:induction false} OneMoreStep(program: seq<Inst>, st: State, limit: u64, n: nat)
    requires Shaped(st) && |program| < U64 && RunFor(program, st, limit, n).1 == Running
    ensures var mid := RunFor(program, st, limit, n).0;
            && mid.pc < |program|
            && var (st1, status) := Step(program, mid, limit);
               RunFor(program, st, limit, n + 1) ==
               (st1, if status == Running && st1.pc >= |program| then Exited else status)
    decreases n
  {
    hide Step;
    var (st1, status) := Step(program, st, limit);
    if n > 0 {
      OneMoreStep(program, st1, limit, n - 1);
    } else {
      assert status == Running ==>
             RunFor(program, st1, limit, 0) == (st1, if st1.pc >= |program| then Exited else Running);
    }
  }

  ghost predicate Halts(program: seq<Inst>, st: State, limit: u64)
    requires Shaped(st) && |program| < U64
  {
    exists n: nat :: RunFor(program, st, limit, n).1 != Running
  }

  // A run that has ended stays as it is.
  lemma {:induction false} StaysHalted(program: seq<Inst>, st: State, limit: u64, n: nat, m: nat)
    requires Shaped(st) && |program| < U64 && n <= m && RunFor(program, st, limit, n).1 != Running
    ensures RunFor(program, st, limit, m) == RunFor(program, st, limit, n)
    decreases n
  {
    hide Step;
    if st.pc < |program| && n > 0 {
      var (st1, status) := Step(program, st, limit);
      if status == Running {
        StaysHalted(program, st1, limit, n - 1, m - 1);
      }
    }
  }

  // The registers that a run sets before its first step.
  function Prepared(st: State): (st1: State)
    requires Shaped(st)
    ensures Shaped(st1)
  {
    st.(regs := st.regs[1 := 0][10 := STACK_SIZE])
  }

  // What the caller of the machine gets; a panic ends the process instead.
  datatype Result = Result(success: bool, gasUsed: u64, returnData: seq<u8>, logs: seq<seq<u8>>, error: Option<Error>)

  function Verdict(next: Next): Option<Result>
    requires Shaped(next.0) && next.1 != Running
  {
    var (st, status) := next;
    if status == Panicked then None
    else if status.Failed? then Some(Result(false, st.used, [], [], Some(status.error)))
    else Some(Result(st.regs[0] == 0, st.used, LeBytes(st.regs[0], 8), st.logs, None))
  }
}
