/** The register machine as an object that changes its registers and memory in place; every method is
    proved to compute the corresponding step of SbfMachine. */
module SbfVM {
  import opened Ints
  import opened Wrappers
  import opened Gas
  import opened LittleEndian
  import opened SbfMachine

  // The instructions behind the 64-byte header of an ELF file.
  method ParseElf(bytecode: seq<u8>) returns (r: Option<seq<Inst>>)
    ensures r == Parse(bytecode)
  {
    if |bytecode| < 4 || bytecode[..4] != ELF_MAGIC {
      return None;
    }
    var code := bytecode[Min(64, |bytecode|)..];
    var insts: seq<Inst> := [];
    var offset := 0;
    while offset + 8 <= |code|
      invariant offset <= |code| && DecodeAll(code) == insts + DecodeAll(code[offset..])
    {
      hide Decode;
      assert code[offset..][8..] == code[offset + 8..];
      insts := insts + [Decode(code[offset..]).value];
      offset := offset + 8;
    }
    assert DecodeAll(code) == insts;
    return Some(if insts == [] then EMPTY_PROGRAM else insts);
  }

  class VM {
    const program: seq<Inst>
    const registers: array<u64>
    const heap: array<u8>
    const meter: GasMeter
    var pc: u64
    var calls: seq<u64>
    var logs: seq<seq<u8>>

    ghost predicate Valid() {
      registers.Length == NUM_REGISTERS && heap.Length == HEAP_SIZE && |program| < U64
    }

    ghost function View(): State
      reads this, registers, heap, meter
    {
      State(registers[..], pc, heap[..], calls, meter.used, logs)
    }

    // A machine for a parsed program.
    constructor (program: seq<Inst>, gasLimit: u64)
      requires |program| < U64
      ensures Valid() && fresh(registers) && fresh(heap) && fresh(meter)
      ensures this.program == program && meter.limit == gasLimit
      ensures View() == Fresh()
    {
      this.program := program;
      registers := new u64[NUM_REGISTERS](_ => 0);
      heap := new u8[HEAP_SIZE](_ => 0);
      meter := new GasMeter(gasLimit);
      pc, calls, logs := 0, [], [];
    }

    method Consume(amount: u64) returns (ok: bool)
      requires Valid()
      modifies meter
      ensures View() == Spend(old(View()), amount, meter.limit)
      ensures ok <==> Fits(old(meter.used), amount, meter.limit)
    {
      ok := meter.Consume(amount);
    }

    method SetRegister(r: nat, v: u64)
      requires Valid() && r < NUM_REGISTERS
      modifies registers
      ensures View() == old(View()).(regs := old(registers[..])[r := v])
    {
      registers[r] := v;
      assert heap[..] == old(heap[..]);
    }

    method StepAlu(i: Inst) returns (status: Status)
      requires Valid()
      modifies registers
      ensures (View(), status) == AluStep(i, old(View()))
    {
      hide Alu;
      if i.opcode in ALU_REG && i.src >= NUM_REGISTERS {
        return Panicked;
      }
      var y: u64 := if i.opcode in ALU_REG then registers[i.src] else WrapU64(i.imm);
      if i.opcode / 16 == 3 && y == 0 {
        return Failed(DivisionByZero);
      }
      if i.opcode / 16 == 9 && y == 0 {
        return Failed(ModuloByZero);
      }
      if i.dst >= NUM_REGISTERS {
        return Panicked;
      }
      SetRegister(i.dst, Alu(i.opcode / 16, registers[i.dst], y));
      return Running;
    }

    method ReadMemory(addr: u64, width: u64) returns (r: Access<nat>)
      requires Valid() && width > 0
      ensures r == Load(heap[..], addr, width)
    {
      var within := Bounds(heap.Length, addr, width);
      match within
      case Invalid => return Invalid;
      case Overflow => return Overflow;
      case Done(_) =>
        var bytes := heap[addr..addr + width];
        assert bytes == heap[..][addr..addr + width];
        return Done(LeValue(bytes));
    }

    method WriteMemory(addr: u64, width: u64, value: u64) returns (r: Access<()>)
      requires Valid() && width > 0
      modifies heap
      ensures match Store(old(heap[..]), addr, width, value)
              case Done(after) => r == Done(()) && heap[..] == after
              case Invalid => r == Invalid && heap[..] == old(heap[..])
              case Overflow => r == Overflow && heap[..] == old(heap[..])
    {
      r := Bounds(heap.Length, addr, width);
      if r.Done? {
        var bytes := LeBytes(value, width);
        for k := 0 to width
          invariant heap[..] == old(heap[..addr]) + bytes[..k] + old(heap[addr + k..])
        {
          heap[addr + k] := bytes[k];
        }
      }
    }

    method StepLoad(i: Inst) returns (status: Status)
      requires Valid() && LoadWidth(i.opcode) > 0
      modifies registers, meter
      ensures (View(), status) == LoadStep(i, old(View()), meter.limit)
    {
      hide Load, LoadWidth, Fits;
      var width := LoadWidth(i.opcode);
      if i.src >= NUM_REGISTERS {
        return Panicked;
      }
      var addr := WrapU64(registers[i.src] + i.offset);
      var ok := Consume(AccessCost(width));
      if !ok {
        return Failed(OutOfGas);
      }
      var v := ReadMemory(addr, width);
      if v.Invalid? {
        return Failed(InvalidMemoryAccess(addr));
      }
      if v.Overflow? || i.dst >= NUM_REGISTERS {
        return Panicked;
      }
      SetRegister(i.dst, WrapU64(v.value));
      return Running;
    }

    method StepStore(i: Inst) returns (status: Status)
      requires Valid() && StoreWidth(i.opcode) > 0
      modifies heap, meter
      ensures (View(), status) == StoreStep(i, old(View()), meter.limit)
    {
      hide Store, StoreWidth, Fits;
      var width := StoreWidth(i.opcode);
      if i.dst >= NUM_REGISTERS || (i.opcode % 2 == 1 && i.src >= NUM_REGISTERS) {
        return Panicked;
      }
      var addr := WrapU64(registers[i.dst] + i.offset);
      var value := if i.opcode % 2 == 1 then registers[i.src] else WrapU64(i.imm);
      var ok := Consume(AccessCost(width));
      if !ok {
        return Failed(OutOfGas);
      }
      var r := WriteMemory(addr, width, value);
      if r.Invalid? {
        return Failed(InvalidMemoryAccess(addr));
      }
      return if r.Overflow? then Panicked else Running;
    }

    method StepJump(i: Inst) returns (status: Status)
      requires Valid()
      modifies `pc
      ensures (View(), status) == JumpStep(i, old(View()))
    {
      hide Taken;
      var target := WrapU64(pc + i.offset);
      if i.opcode == 0x05 {
        pc := target;
        return Running;
      }
      if i.dst >= NUM_REGISTERS || (i.opcode == 0x1d && i.src >= NUM_REGISTERS) {
        return Panicked;
      }
      if Taken(i.opcode, registers[i.dst], if i.opcode == 0x1d then registers[i.src] else WrapU64(i.imm)) {
        pc := target;
      }
      return Running;
    }

    method StepCall(i: Inst) returns (status: Status)
      requires Valid()
      modifies this, registers, meter
      ensures (View(), status) == CallStep(i, old(View()), meter.limit)
    {
      hide LogStep, Fits;
      var ok := Consume(CALL);
      if !ok {
        return Failed(OutOfGas);
      }
      if |calls| >= MAX_CALL_DEPTH {
        return Failed(StackOverflow);
      }
      if i.imm == 1 {
        status := DoLog();
      } else if i.imm == 2 {
        ok := Consume(SHA3_BASE);
        if !ok {
          return Failed(OutOfGas);
        }
        SetRegister(0, 0);
        return Running;
      } else {
        calls := calls + [pc];
        pc := WrapU64(i.imm);
        return Running;
      }
    }

    method DoLog() returns (status: Status)
      requires Valid()
      modifies `logs, registers
      ensures (View(), status) == LogStep(old(View()))
    {
      var addr, size := registers[1], registers[2];
      var within := Check(heap.Length, addr, size);
      if within.Overflow? {
        return Panicked;
      }
      if within.Done? {
        logs := logs + [heap[addr..addr + size]];
        assert heap[addr..addr + size] == heap[..][addr..addr + size];
      }
      SetRegister(0, 0);
      return Running;
    }

    method StepExit() returns (status: Status)
      requires Valid()
      modifies this
      ensures (View(), status) == ExitStep(old(View()))
    {
      if calls == [] {
        return Exited;
      }
      pc, calls := calls[|calls| - 1], calls[..|calls| - 1];
      return Running;
    }

    method DoStep() returns (status: Status)
      requires Valid() && pc < |program|
      modifies this, registers, heap, meter
      ensures (View(), status) == Step(program, old(View()), meter.limit)
    {
      hide AluStep, LoadStep, StoreStep, JumpStep, CallStep, ExitStep, Fits, ALU_IMM, ALU_REG, JUMPS, LoadWidth,
        StoreWidth;
      var i := program[pc];
      pc := pc + 1;
      var ok := Consume(BASE);
      if !ok {
        return Failed(OutOfGas);
      }
      if i.opcode in ALU_IMM || i.opcode in ALU_REG {
        status := StepAlu(i);
      } else if LoadWidth(i.opcode) > 0 {
        status := StepLoad(i);
      } else if StoreWidth(i.opcode) > 0 {
        status := StepStore(i);
      } else if i.opcode in JUMPS {
        status := StepJump(i);
      } else if i.opcode == 0x85 {
        status := StepCall(i);
      } else if i.opcode == 0x95 {
        status := StepExit();
      } else {
        status := Failed(InvalidOpcode(i.opcode));
      }
    }

    method SetUpRegisters()
      requires Valid()
      modifies registers
      ensures View() == Prepared(old(View()))
    {
      registers[1] := 0;
      registers[10] := STACK_SIZE;
    }

    // The run loop, for runs that end: every run under a limit below u64::MAX does, within limit / 2 + 1 steps
    // (see SbfProperties).
    method Execute() returns (r: Option<Result>, ghost n: nat)
      requires Valid() && Halts(program, Prepared(View()), meter.limit)
      modifies this, registers, heap, meter
      ensures meter.limit < U64_MAX ==> n <= meter.limit / 2 + 1
      ensures var next := RunFor(program, Prepared(old(View())), meter.limit, n);
              next.1 != Running && r == Verdict(next)
    {
      hide Step, Prepared, LeBytes, RunFor;
      SetUpRegisters();
      ghost var start := View();
      ghost var end: nat :| RunFor(program, start, meter.limit, end).1 != Running;
      n := 0;
      RunOfNoSteps(program, start, meter.limit);
      while pc < |program|
        invariant RunFor(program, start, meter.limit, n) == (View(), if pc < |program| then Running else Exited)
        invariant meter.limit < U64_MAX ==> 2 * n <= meter.used && (n > 0 ==> meter.used <= meter.limit)
        decreases end - n
      {
        if end <= n {
          StaysHalted(program, start, meter.limit, end, n);
        }
        OneMoreStep(program, start, meter.limit, n);
        var status := DoStep();
        n := n + 1;
        if status == Panicked {
          return None, n;
        } else if status.Failed? {
          return Some(Result(false, meter.used, [], [], Some(status.error))), n;
        } else if status == Exited {
          break;
        }
      }
      r := Some(Result(registers[0] == 0, meter.used, LeBytes(registers[0], 8), logs, None));
    }
  }

  lemma RunOfNoSteps(program: seq<Inst>, st: State, limit: u64)
    requires Shaped(st) && |program| < U64
    ensures RunFor(program, st, limit, 0) == (st, if st.pc < |program| then Running else Exited)
  {
  }
}
