/** What holds in every run of the register machine. */
module SbfProperties {
  import opened Ints
  import opened Wrappers
  import opened Gas
  import opened Arithmetic
  import opened LittleEndian
  import opened SbfMachine

  // ---------- Calls ----------

  // Every saved return address is an instruction or the end of the program.
  predicate CallsInside(program: seq<Inst>, st: State) {
    |st.calls| <= MAX_CALL_DEPTH && forall k :: 0 <= k < |st.calls| ==> st.calls[k] <= |program|
  }

  lemma StepKeepsCallsInside(program: seq<Inst>, st: State, limit: u64)
    requires Shaped(st) && st.pc < |program| < U64 && CallsInside(program, st)
    ensures CallsInside(program, Step(program, st, limit).0)
  {
    hide AluStep, LoadStep, StoreStep, JumpStep, Fits, ALU_IMM, ALU_REG, JUMPS, LoadWidth, StoreWidth;
    OnlyCallsMoveCalls(program[st.pc], Spend(st, BASE, limit).(pc := st.pc + 1), limit);
  }

  lemma OnlyCallsMoveCalls(i: Inst, st: State, limit: u64)
    requires Shaped(st)
    ensures AluStep(i, st).0.calls == st.calls && JumpStep(i, st).0.calls == st.calls
    ensures LoadWidth(i.opcode) > 0 ==> LoadStep(i, st, limit).0.calls == st.calls
    ensures StoreWidth(i.opcode) > 0 ==> StoreStep(i, st, limit).0.calls == st.calls
  {
    hide Load, Store, Alu, Taken, LoadWidth, StoreWidth, Fits, ALU_REG;
  }

  lemma {:induction false} RunKeepsCallsInside(program: seq<Inst>, st: State, limit: u64, n: nat)
    requires Shaped(st) && |program| < U64 && CallsInside(program, st)
    ensures CallsInside(program, RunFor(program, st, limit, n).0)
    decreases n
  {
    hide Step, CallsInside;
    if st.pc < |program| && n > 0 {
      StepKeepsCallsInside(program, st, limit);
      RunKeepsCallsInside(program, Step(program, st, limit).0, limit, n - 1);
    }
  }

  // ---------- Halting ----------

  // A run that is still going after n steps has spent at least two units of gas for each of them.
  lemma {:induction false} RunningSpends(program: seq<Inst>, st: State, limit: u64, n: nat)
    requires Shaped(st) && |program| < U64 && limit < U64_MAX
    requires RunFor(program, st, limit, n).1 == Running && n > 0
    ensures st.used + BASE * n <= RunFor(program, st, limit, n).0.used <= limit
    decreases n
  {
    hide Step;
    var (st1, status) := Step(program, st, limit);
    if n > 1 {
      RunningSpends(program, st1, limit, n - 1);
    }
  }

  // Jumping to itself for ever is possible only if the gas counter saturates at the limit.
  const LOOP: seq<Inst> := [Inst(0x05, 0, 0, -1, 0)]

  lemma {:induction false} LoopRunsOn(st: State, n: nat)
    requires Shaped(st) && st.pc == 0
    ensures RunFor(LOOP, st, U64_MAX, n).1 == Running
    decreases n
  {
    hide AluStep, LoadStep, StoreStep, CallStep, ExitStep;
    if n > 0 {
      var (st1, status) := Step(LOOP, st, U64_MAX);
      assert Fits(st.used, BASE, U64_MAX);
      LoopSteps(st);
      LoopRunsOn(st1, n - 1);
    }
  }

  lemma LoopSteps(st: State)
    requires Shaped(st) && st.pc == 0
    ensures Step(LOOP, st, U64_MAX) == (Spend(st, BASE, U64_MAX).(pc := 0), Running)
  {
  }

  // Every program halts from every state exactly under the limits below u64::MAX.
  lemma EveryProgramHaltsIff(limit: u64)
    ensures (forall program, st :: Shaped(st) && |program| < U64 ==> Halts(program, st, limit)) <==> limit < U64_MAX
  {
    if limit < U64_MAX {
      forall program, st | Shaped(st) && |program| < U64 ensures Halts(program, st, limit) {
        hide RunFor;
        assert RunFor(program, st, limit, limit + 1).1 != Running by {
          if RunFor(program, st, limit, limit + 1).1 == Running {
            RunningSpends(program, st, limit, limit + 1);
          }
        }
      }
    } else {
      forall n: nat ensures RunFor(LOOP, Fresh(), limit, n).1 == Running {
        LoopRunsOn(Fresh(), n);
      }
      assert !Halts(LOOP, Fresh(), limit);
    }
  }

  // ---------- Gas ----------

  // What a step that does not run out of gas under one limit does under another.
  predicate Agrees(r: Next, other: Next, limit: u64) {
    if r.0.used <= limit then other == r else other.1 == Failed(OutOfGas) && other.0.used == limit
  }

  lemma LoadAgrees(i: Inst, st: State, a: u64, b: u64)
    requires Shaped(st) && LoadWidth(i.opcode) > 0 && st.used <= b
    requires LoadStep(i, st, a).1 != Failed(OutOfGas)
    ensures Agrees(LoadStep(i, st, a), LoadStep(i, st, b), b) && LoadStep(i, st, a).0.used >= st.used
  {
    hide Load, LoadWidth;
  }

  lemma StoreAgrees(i: Inst, st: State, a: u64, b: u64)
    requires Shaped(st) && StoreWidth(i.opcode) > 0 && st.used <= b
    requires StoreStep(i, st, a).1 != Failed(OutOfGas)
    ensures Agrees(StoreStep(i, st, a), StoreStep(i, st, b), b) && StoreStep(i, st, a).0.used >= st.used
  {
    hide Store, StoreWidth;
  }

  lemma CallAgrees(i: Inst, st: State, a: u64, b: u64)
    requires Shaped(st) && st.used <= b
    requires CallStep(i, st, a).1 != Failed(OutOfGas)
    ensures Agrees(CallStep(i, st, a), CallStep(i, st, b), b) && CallStep(i, st, a).0.used >= st.used
  {
    LogKeepsUsed(Spend(st, CALL, a));
    hide LogStep;
  }

  lemma LogKeepsUsed(st: State)
    requires Shaped(st)
    ensures LogStep(st).0.used == st.used
  {
  }

  lemma FreeStepsKeepUsed(i: Inst, st: State)
    requires Shaped(st)
    ensures AluStep(i, st).0.used == st.used && JumpStep(i, st).0.used == st.used && ExitStep(st).0.used == st.used
  {
    hide Alu, Taken, ALU_REG;
  }

  lemma DispatchAgrees(i: Inst, st: State, a: u64, b: u64)
    requires Shaped(st) && st.used <= b && Dispatch(i, st, a).1 != Failed(OutOfGas)
    ensures Agrees(Dispatch(i, st, a), Dispatch(i, st, b), b) && Dispatch(i, st, a).0.used >= st.used
  {
    hide AluStep, LoadStep, StoreStep, JumpStep, CallStep, ExitStep, ALU_IMM, ALU_REG, JUMPS, LoadWidth, StoreWidth;
    FreeStepsKeepUsed(i, st);
    if i.opcode in ALU_IMM || i.opcode in ALU_REG {
    } else if LoadWidth(i.opcode) > 0 {
      LoadAgrees(i, st, a, b);
    } else if StoreWidth(i.opcode) > 0 {
      StoreAgrees(i, st, a, b);
    } else if i.opcode !in JUMPS && i.opcode == 0x85 {
      CallAgrees(i, st, a, b);
    }
  }

  lemma StepAgrees(program: seq<Inst>, st: State, a: u64, b: u64)
    requires Shaped(st) && st.pc < |program| < U64 && st.used <= b
    requires Step(program, st, a).1 != Failed(OutOfGas)
    ensures Agrees(Step(program, st, a), Step(program, st, b), b) && Step(program, st, a).0.used >= st.used
  {
    hide Dispatch;
    var st1 := Spend(st, BASE, a).(pc := st.pc + 1);
    if Fits(st.used, BASE, b) {
      DispatchAgrees(program[st.pc], st1, a, b);
    } else {
      DispatchSpends(program[st.pc], st1, a);
    }
  }

  lemma DispatchSpends(i: Inst, st: State, a: u64)
    requires Shaped(st) && st.used <= a && Dispatch(i, st, a).1 != Failed(OutOfGas)
    ensures Dispatch(i, st, a).0.used >= st.used
  {
    hide Dispatch;
    DispatchAgrees(i, st, a, a);
  }

  // A run that does not run out of gas and uses G gives the same under every limit from G on, and runs
  // out of gas under every limit below G, with that limit used up.
  lemma {:induction false} SbfGasMonotone(program: seq<Inst>, st: State, limit: u64, other: u64, n: nat)
    requires Shaped(st) && |program| < U64 && st.used <= limit && st.used <= other
    requires RunFor(program, st, limit, n).1 != Failed(OutOfGas)
    ensures Agrees(RunFor(program, st, limit, n), RunFor(program, st, other, n), other)
    ensures st.used <= RunFor(program, st, limit, n).0.used
    decreases n
  {
    hide Step;
    if st.pc < |program| && n > 0 {
      StepAgrees(program, st, limit, other);
      StepAgrees(program, st, limit, limit);
      var (st1, status) := Step(program, st, limit);
      if status == Running {
        if st1.used <= other {
          SbfGasMonotone(program, st1, limit, other, n - 1);
        } else {
          SbfGasMonotone(program, st1, limit, limit, n - 1);
        }
      }
    }
  }

  // ---------- Panics ----------

  // The end of the memory range that an instruction reads or writes.
  function AccessEnd(i: Inst, st: State): nat
    requires Shaped(st)
  {
    if LoadWidth(i.opcode) > 0 && i.src < NUM_REGISTERS then WrapU64(st.regs[i.src] + i.offset) + LoadWidth(i.opcode)
    else if StoreWidth(i.opcode) > 0 && i.dst < NUM_REGISTERS then
      WrapU64(st.regs[i.dst] + i.offset) + StoreWidth(i.opcode)
    else if LogCall(i) then st.regs[1] as int + st.regs[2]
    else 0
  }

  predicate LogCall(i: Inst) {
    i.opcode == 0x85 && i.imm == 1
  }

  // A range whose end passes 2^64 and, wrapped around, looks as if it were inside memory. Single bytes are
  // looked up without an end.
  predicate WrapsInside(i: Inst, st: State)
    requires Shaped(st)
  {
    && AccessEnd(i, st) >= U64 && WrapU64(AccessEnd(i, st)) <= HEAP_SIZE
    && (LoadWidth(i.opcode) > 1 || StoreWidth(i.opcode) > 1 || LogCall(i))
  }

  // The instruction gets as far as its access.
  predicate Reaches(i: Inst, st: State, limit: u64) {
    if LogCall(i) then Fits(st.used, CALL, limit) && |st.calls| < MAX_CALL_DEPTH
    else Fits(st.used, AccessCost(Max(LoadWidth(i.opcode), StoreWidth(i.opcode))), limit)
  }

  predicate DividesByZero(i: Inst, st: State)
    requires Shaped(st)
  {
    && (i.opcode / 16 == 3 || i.opcode / 16 == 9)
    && (if i.opcode in ALU_REG then i.src < NUM_REGISTERS && st.regs[i.src] == 0 else i.imm == 0)
  }

  // The instruction uses one of the registers 11 to 15, which do not exist. Division by zero is noticed before the
  // destination is, and so are a load that is not paid for or out of range.
  predicate MissesRegister(i: Inst, st: State, limit: u64)
    requires Shaped(st)
  {
    var src, dst := i.src >= NUM_REGISTERS, i.dst >= NUM_REGISTERS;
    if i.opcode in ALU_IMM || i.opcode in ALU_REG then
      (i.opcode in ALU_REG && src) || (dst && !DividesByZero(i, st))
    else if LoadWidth(i.opcode) > 0 then src || (dst && Reaches(i, st, limit) && AccessEnd(i, st) <= HEAP_SIZE)
    else if StoreWidth(i.opcode) > 0 then dst || (i.opcode % 2 == 1 && src)
    else i.opcode in JUMPS && i.opcode != 0x05 && (dst || (i.opcode == 0x1d && src))
  }

  // The instruction cannot be carried out in this state.
  predicate Breaks(i: Inst, st: State, limit: u64)
    requires Shaped(st)
  {
    MissesRegister(i, st, limit) || (Reaches(i, st, limit) && WrapsInside(i, st))
  }

  // A step panics if and only if its base gas suffices and then it uses a register that does not exist, or pays for
  // and slices a range that wraps around into memory. No other step can panic.
  lemma StepPanicsIff(program: seq<Inst>, st: State, limit: u64)
    requires Shaped(st) && st.pc < |program| < U64
    ensures Step(program, st, limit).1 == Panicked <==>
            Fits(st.used, BASE, limit) && Breaks(program[st.pc], Spend(st, BASE, limit), limit)
  {
    hide Dispatch, Breaks;
    DispatchPanicsIff(program[st.pc], Spend(st, BASE, limit).(pc := st.pc + 1), limit);
    SameBreaks(program[st.pc], Spend(st, BASE, limit), st.pc + 1, limit);
  }

  lemma SameBreaks(i: Inst, st: State, pc: u64, limit: u64)
    requires Shaped(st)
    ensures Breaks(i, st, limit) <==> Breaks(i, st.(pc := pc), limit)
  {
  }

  lemma DispatchPanicsIff(i: Inst, st: State, limit: u64)
    requires Shaped(st)
    ensures Dispatch(i, st, limit).1 == Panicked <==> Breaks(i, st, limit)
  {
    hide AluStep, LoadStep, StoreStep, JumpStep, CallStep, AccessCost, Fits, WrapU64, DividesByZero;
    AluPanicsIff(i, st);
    JumpPanicsIff(i, st);
    if LoadWidth(i.opcode) > 0 {
      LoadPanicsIff(i, st, limit);
    } else if StoreWidth(i.opcode) > 0 {
      StorePanicsIff(i, st, limit);
    } else if i.opcode == 0x85 {
      CallPanicsIff(i, st, limit);
    }
  }

  // When a slice panics.
  predicate PastTheEnd(addr: u64, width: u64) {
    addr + width >= U64 && WrapU64(addr + width) <= HEAP_SIZE
  }

  lemma AluPanicsIff(i: Inst, st: State)
    requires Shaped(st)
    ensures AluStep(i, st).1 == Panicked <==>
            (i.opcode in ALU_REG && i.src >= NUM_REGISTERS) || (i.dst >= NUM_REGISTERS && !DividesByZero(i, st))
  {
    hide Alu, ALU_REG;
  }

  lemma JumpPanicsIff(i: Inst, st: State)
    requires Shaped(st)
    ensures JumpStep(i, st).1 == Panicked <==>
            i.opcode != 0x05 && (i.dst >= NUM_REGISTERS || (i.opcode == 0x1d && i.src >= NUM_REGISTERS))
    ensures ExitStep(st).1 != Panicked
  {
    hide Taken, WrapU64;
  }

  lemma LoadPanicsIff(i: Inst, st: State, limit: u64)
    requires Shaped(st) && LoadWidth(i.opcode) > 0
    ensures var width := LoadWidth(i.opcode);
            LoadStep(i, st, limit).1 == Panicked <==>
            || i.src >= NUM_REGISTERS
            || (Fits(st.used, AccessCost(width), limit) &&
                var addr := WrapU64(st.regs[i.src] + i.offset);
                (width > 1 && PastTheEnd(addr, width)) || (i.dst >= NUM_REGISTERS && addr + width <= HEAP_SIZE))
  {
    hide LoadWidth, AccessCost, Fits;
  }

  lemma StorePanicsIff(i: Inst, st: State, limit: u64)
    requires Shaped(st) && StoreWidth(i.opcode) > 0
    ensures var width := StoreWidth(i.opcode);
            StoreStep(i, st, limit).1 == Panicked <==>
            || i.dst >= NUM_REGISTERS || (i.opcode % 2 == 1 && i.src >= NUM_REGISTERS)
            || (Fits(st.used, AccessCost(width), limit) && width > 1 &&
                PastTheEnd(WrapU64(st.regs[i.dst] + i.offset), width))
  {
    hide StoreWidth, AccessCost, Fits;
  }

  lemma CallPanicsIff(i: Inst, st: State, limit: u64)
    requires Shaped(st)
    ensures CallStep(i, st, limit).1 == Panicked <==>
            Fits(st.used, CALL, limit) && |st.calls| < MAX_CALL_DEPTH && i.imm == 1 &&
            PastTheEnd(st.regs[1], st.regs[2])
  {
    hide Fits;
  }

  // After n steps the run goes on with such a step.
  predicate BreaksAt(program: seq<Inst>, st: State, limit: u64, n: nat)
    requires Shaped(st) && |program| < U64
  {
    var (mid, status) := RunFor(program, st, limit, n);
    && status == Running && mid.pc < |program| && Fits(mid.used, BASE, limit)
    && Breaks(program[mid.pc], Spend(mid, BASE, limit), limit)
  }

  lemma BreakingStepPanics(program: seq<Inst>, st: State, limit: u64, n: nat)
    requires Shaped(st) && |program| < U64 && RunFor(program, st, limit, n).1 == Running
    ensures BreaksAt(program, st, limit, n) <==> RunFor(program, st, limit, n + 1).1 == Panicked
  {
    hide Step, RunFor, Breaks;
    OneMoreStep(program, st, limit, n);
    StepPanicsIff(program, RunFor(program, st, limit, n).0, limit);
  }

  lemma {:induction false} PanicHasStep(program: seq<Inst>, st: State, limit: u64, n: nat) returns (m: nat)
    requires Shaped(st) && |program| < U64 && RunFor(program, st, limit, n).1 == Panicked
    ensures BreaksAt(program, st, limit, m)
    decreases n
  {
    hide Step, BreaksAt;
    if RunFor(program, st, limit, n - 1).1 == Running {
      m := n - 1;
      BreakingStepPanics(program, st, limit, m);
    } else {
      StaysHalted(program, st, limit, n - 1, n);
      m := PanicHasStep(program, st, limit, n - 1);
    }
  }

  // A program ends in a panic if and only if its run gets to such a step.
  lemma RunPanicsIff(program: seq<Inst>, st: State, limit: u64)
    requires Shaped(st) && |program| < U64
    ensures (exists n: nat :: RunFor(program, st, limit, n).1 == Panicked) <==>
            (exists n: nat :: BreaksAt(program, st, limit, n))
  {
    hide RunFor;
    if n: nat :| RunFor(program, st, limit, n).1 == Panicked {
      var m := PanicHasStep(program, st, limit, n);
    }
    if n: nat :| BreaksAt(program, st, limit, n) {
      BreakingStepPanics(program, st, limit, n);
    }
  }

  // Such steps, each as the first of a program: a load of two bytes at 2^64 - 1, and a move to register 11. They
  // panic under every limit that pays for them.
  lemma LoadBeforeZeroPanics(limit: u64)
    ensures var program := [Inst(0x69, 0, 0, -1, 0)];
            RunFor(program, Prepared(Fresh()), limit, 1).1 == Panicked <==> limit >= BASE + VERY_LOW
  {
    var program := [Inst(0x69, 0, 0, -1, 0)];
    hide Step;
    StepPanicsIff(program, Prepared(Fresh()), limit);
  }

  lemma MoveToRegister11Panics(limit: u64)
    ensures RunFor([Inst(0xb7, 11, 0, 0, 0)], Prepared(Fresh()), limit, 1).1 == Panicked <==> limit >= BASE
  {
    hide Step;
    StepPanicsIff([Inst(0xb7, 11, 0, 0, 0)], Prepared(Fresh()), limit);
  }

  // ---------- Memory ----------

  // A load reads back the low bytes of what a store at the same address wrote...
  lemma LoadAfterStore(heap: seq<u8>, addr: u64, width: u64, value: u64)
    requires |heap| < U64 && width > 0 && Store(heap, addr, width, value).Done?
    ensures Load(Store(heap, addr, width, value).value, addr, width) == Done(value % Pow256(width))
  {
    var bytes := LeBytes(value, width);
    var after := Store(heap, addr, width, value).value;
    assert after[addr..addr + width] == bytes;
    LeValueOfBytes(value, width);
  }

  // ... and a load elsewhere reads what was there before.
  lemma LoadBesideStore(heap: seq<u8>, addr: u64, width: u64, value: u64, at: u64, size: u64)
    requires |heap| < U64 && width > 0 && size > 0 && Store(heap, addr, width, value).Done?
    requires at + size <= addr || addr + width <= at
    ensures Load(Store(heap, addr, width, value).value, at, size) == Load(heap, at, size)
  {
    hide LeBytes, LeValue;
    var after := Store(heap, addr, width, value).value;
    if at + size <= |heap| {
      SameSlice(heap, after, addr, width, at, size);
    }
  }

  lemma SameSlice(heap: seq<u8>, after: seq<u8>, addr: nat, width: nat, at: nat, size: nat)
    requires |after| == |heap| && addr + width <= |heap| && at + size <= |heap|
    requires after[..addr] == heap[..addr] && after[addr + width..] == heap[addr + width..]
    requires at + size <= addr || addr + width <= at
    ensures after[at..at + size] == heap[at..at + size]
  {
    var d := addr + width;
    forall i | at <= i < at + size ensures after[i] == heap[i] {
      if i < addr {
        assert after[..addr][i] == heap[..addr][i];
      } else {
        assert after[d..][i - d] == heap[d..][i - d];
      }
    }
  }

  // ---------- Instruction encoding ----------

  function Unsigned(x: int, n: nat): nat
    requires 0 - Pow256(n) / 2 <= x < Pow256(n) / 2
  {
    if x < 0 then x + Pow256(n) else x
  }

  function Encode(i: Inst): (bytes: seq<u8>)
    ensures |bytes| == 8
  {
    assert Pow256(2) == 0x1_0000 && Pow256(4) == 0x1_0000_0000;
    [i.opcode, i.dst + 16 * i.src] + LeBytes(Unsigned(i.offset, 2), 2) + LeBytes(Unsigned(i.imm, 4), 4)
  }

  function EncodeAll(insts: seq<Inst>): seq<u8> {
    if insts == [] then [] else Encode(insts[0]) + EncodeAll(insts[1..])
  }

  lemma DecodeEncoded(i: Inst, rest: seq<u8>)
    ensures Decode(Encode(i) + rest) == Some(i)
  {
    assert Pow256(2) == 0x1_0000 && Pow256(4) == 0x1_0000_0000;
    var bytes := Encode(i) + rest;
    assert bytes[2..4] == LeBytes(Unsigned(i.offset, 2), 2) && bytes[4..8] == LeBytes(Unsigned(i.imm, 4), 4);
    LeValueExact(Unsigned(i.offset, 2), 2);
    LeValueExact(Unsigned(i.imm, 4), 4);
  }

  lemma {:induction false} DecodeAllEncoded(insts: seq<Inst>, rest: seq<u8>)
    requires |rest| < 8
    ensures DecodeAll(EncodeAll(insts) + rest) == insts
    decreases |insts|
  {
    hide Decode, Encode;
    if insts == [] {
      assert EncodeAll(insts) + rest == rest;
    } else {
      var tail := EncodeAll(insts[1..]) + rest;
      DecodeEncoded(insts[0], tail);
      DecodeAllEncoded(insts[1..], rest);
      assert EncodeAll(insts) + rest == Encode(insts[0]) + tail;
      assert (Encode(insts[0]) + tail)[8..] == tail;
    }
  }

  // A program behind a 64-byte header is read back, whatever fewer than eight bytes follow it.
  lemma ParseReadsEncoded(header: seq<u8>, insts: seq<Inst>, rest: seq<u8>)
    requires |header| == 64 && header[..4] == ELF_MAGIC && insts != [] && |rest| < 8
    ensures Parse(header + EncodeAll(insts) + rest) == Some(insts)
  {
    hide DecodeAll, EncodeAll;
    var code := header + EncodeAll(insts) + rest;
    assert code[..4] == header[..4];
    assert code[64..] == EncodeAll(insts) + rest;
    DecodeAllEncoded(insts, rest);
  }

  // ---------- Arithmetic ----------

  // Subtraction undoes addition and negation itself, also across the wrap-around.
  lemma SubUndoesAdd(x: u64, y: u64)
    ensures Alu(1, Alu(0, x, y), y) == x && Alu(0, Alu(1, x, y), y) == x && Alu(8, Alu(8, x, y), y) == x
  {
    hide Or64, And64, Xor64, ShiftLeft, ShiftRight;
  }

  // Quotient and remainder make up the dividend.
  lemma DivModRebuild(x: u64, y: u64)
    requires y != 0
    ensures Alu(0, Alu(2, Alu(3, x, y), y), Alu(9, x, y)) == x && Alu(9, x, y) < y
  {
    hide Or64, And64, Xor64, ShiftLeft, ShiftRight, WrapU64;
    QuotientTimes(x, y);
  }

  lemma QuotientTimes(x: u64, y: u64)
    requires y != 0
    ensures 0 <= (x / y) * y <= x && (x / y) * y + x % y == x && 0 <= x % y < y
    ensures WrapU64((x / y) * y) == (x / y) * y && WrapU64((x / y) * y + x % y) == x
  {
    hide WrapU64;
    var q: nat, r: nat := x / y, x % y;
    assert x == q * y + r;
    MulGrows(0, q, y);
  }

  // A right shift undoes a left shift that loses no bit; only the low six bits of the count matter.
  lemma ShiftBack(x: u64, count: u64)
    requires x * Pow2(count % 64) < U64
    ensures Alu(7, Alu(6, x, count), count) == x && Alu(6, x, count) == Alu(6, x, count % 64)
  {
    hide Or64, And64, Xor64, ShiftLeft, ShiftRight, Pow2;
    ShiftsUndo(x, count);
  }

  lemma ShiftsUndo(x: u64, count: u64)
    requires x * Pow2(count % 64) < U64
    ensures ShiftRight(ShiftLeft(x, count), count) == x && ShiftLeft(x, count) == ShiftLeft(x, count % 64)
  {
    hide Pow2, Quotient, WrapU64;
    UndoProduct(x, Pow2(count % 64));
    assert count % 64 % 64 == count % 64;
  }

  lemma UndoProduct(x: nat, m: nat)
    requires m > 0 && x * m < U64
    ensures x * m >= 0 && Quotient(WrapU64(x * m), m) == x
  {
    hide Quotient, WrapU64;
    MulGrows(0, x, m);
    QuotientOfProduct(x, m);
  }

  lemma QuotientOfProduct(x: nat, m: nat)
    requires m > 0
    ensures Quotient(x * m, m) == x
  {
    DivModUnique(x * m, x, m, 0);
  }
}
