/** Resource bounds of the Kaspa script VM over every run: stack sizes, element sizes, and gas. */
module KaspaResources {
  import opened Ints
  import opened Wrappers
  import opened Gas
  import opened ScriptNumber
  import opened KaspaOps
  import opened KaspaInterpreter

  // ---------- Stacks and elements ----------

  predicate Bounded(d: Data) {
    && AllShort(d.stack)
    && AllShort(d.alt)
    && (forall k :: k in d.store ==> Short(k) && Short(d.store[k]))
  }

  function Size(d: Data): nat {
    |d.stack| + |d.alt|
  }

  function Used(r: Res<Data>): u64 {
    match r
    case Good(d) => d.used
    case Bad(_, used) => used
  }

  // From bounded data: the result is bounded, at most three elements more, and a stack overflow needs an
  // almost full stack.
  predicate Modest(d: Data, r: Res<Data>) {
    match r
    case Good(d1) => Bounded(d1) && Size(d1) <= Size(d) + 3
    case Bad(e, _) => e == StackOverflow ==> |d.stack| > MAX_STACK_SIZE - 3
  }

  lemma FlowIsModest(op: FlowOp, d: Data)
    requires Bounded(d)
    ensures Modest(d, ApplyFlow(op, d)) && Used(ApplyFlow(op, d)) == d.used
  {
  }

  lemma {:induction false} PushAllIsModest(d: Data, es: seq<Elem>)
    requires Bounded(d) && AllShort(es)
    ensures match PushAll(d, es)
            case Good(d1) => Bounded(d1) && Size(d1) == Size(d) + |es|
            case Bad(e, _) => e == StackOverflow ==> |d.stack| + |es| > MAX_STACK_SIZE
    ensures Used(PushAll(d, es)) == d.used
    decreases |es|
  {
    if es != [] {
      match Push(d, es[0])
      case Good(d1) => PushAllIsModest(d1, es[1..]);
      case Bad(_, _) =>
    }
  }

  lemma CopyIsModest(d: Data, k: nat)
    requires Bounded(d) && k <= 3
    ensures Modest(d, CopyTop(d, k)) && Used(CopyTop(d, k)) == d.used
  {
    if |d.stack| >= k {
      PushAllIsModest(d, d.stack[|d.stack| - k..]);
    }
  }

  lemma StackIsModest(op: StackOp, d: Data)
    requires Bounded(d)
    ensures Modest(d, ApplyStack(op, d)) && Used(ApplyStack(op, d)) == d.used
  {
    match op
    case Nip => ShuffleIsModest(op, d);
    case Rot => ShuffleIsModest(op, d);
    case Swap => ShuffleIsModest(op, d);
    case Tuck => ShuffleIsModest(op, d);
    case Roll => PickIsModest(op, d);
    case Pick => PickIsModest(op, d);
    case _ => OtherStackIsModest(op, d);
  }

  lemma ShuffleIsModest(op: StackOp, d: Data)
    requires Bounded(d) && (op.Nip? || op.Rot? || op.Swap? || op.Tuck?)
    ensures Modest(d, ApplyStack(op, d)) && Used(ApplyStack(op, d)) == d.used
  {
  }

  lemma PickIsModest(op: StackOp, d: Data)
    requires Bounded(d) && (op.Pick? || op.Roll?)
    ensures Modest(d, ApplyStack(op, d)) && Used(ApplyStack(op, d)) == d.used
  {
    hide PopNumber;
    match PopNumber(d)
    case Bad(_, _) =>
    case Good((k, d1)) =>
      var i := WrapU64(k);
      if i < |d1.stack| {
        var at := |d1.stack| - 1 - i;
        var rest := d1.(stack := d1.stack[..at] + d1.stack[at + 1..]);
        assert Short(d1.stack[at]);
        assert AllShort(rest.stack);
        PushIsModest(d, d1, d1.stack[at]);
        PushIsModest(d, rest, d1.stack[at]);
      }
  }

  lemma OtherStackIsModest(op: StackOp, d: Data)
    requires Bounded(d)
    requires op.ToAlt? || op.FromAlt? || op.Drop? || op.Drop2? || op.Over? || op.Depth? || op.IfDup? || op.Dup? ||
             op.Dup2? || op.Dup3?
    ensures Modest(d, ApplyStack(op, d)) && Used(ApplyStack(op, d)) == d.used
  {
    hide Pop, FromI64, IsTrue, CopyTop;
    CopyIsModest(d, 1);
    CopyIsModest(d, 2);
    CopyIsModest(d, 3);
  }

  // A push after taking: at most one element more.
  lemma PushIsModest(d: Data, d1: Data, e: Elem)
    requires Bounded(d) && Taken(d, d1)
    ensures Modest(d, Push(d1, e)) && Used(Push(d1, e)) == d.used
  {
  }

  lemma PushesAreModest(d: Data)
    requires Bounded(d)
    ensures forall d1, e :: Taken(d, d1) ==> Modest(d, Push(d1, e)) && Used(Push(d1, e)) == d.used
  {
    hide Bounded, Taken, Push, Modest;
    forall d1, e | Taken(d, d1) ensures Modest(d, Push(d1, e)) && Used(Push(d1, e)) == d.used {
      PushIsModest(d, d1, e);
    }
  }

  lemma BytesIsModest(op: BytesOp, d: Data)
    requires Bounded(d)
    ensures Modest(d, ApplyBytes(op, d)) && Used(ApplyBytes(op, d)) == d.used
  {
    hide Pop, PopNumber, ApplyCut, ApplyJoin, FromI64;
    if op.Cut? {
      CutIsModest(op.cut, d);
    } else if op.Join? && Pop(d).Good? && Pop(Pop(d).value.1).Good? {
      var (b, d1) := Pop(d).value;
      var (a, d2) := Pop(d1).value;
      JoinIsModest(op.join, a, b, d, d2);
    }
  }

  lemma JoinIsModest(op: JoinKind, a: Elem, b: Elem, d: Data, d1: Data)
    requires Bounded(d) && Taken(d, d1)
    ensures Modest(d, ApplyJoin(op, a, b, d1)) && Used(ApplyJoin(op, a, b, d1)) == d.used
  {
    hide Zip;
  }

  lemma CutIsModest(op: CutKind, d: Data)
    requires Bounded(d)
    ensures Modest(d, ApplyCut(op, d)) && Used(ApplyCut(op, d)) == d.used
  {
    hide Pop, PopNumber;
  }

  lemma PairIsModest(op: PairOp, a: i64, b: i64, d: Data, d1: Data)
    requires Bounded(d) && Taken(d, d1)
    ensures Modest(d, ApplyPair(op, a, b, d1)) && Used(ApplyPair(op, a, b, d1)) == d.used
  {
    hide FromI64, WrapI64, TruncDiv, TruncMod, Ints.Pow2;
  }

  lemma NumberIsModest(op: NumberOp, d: Data)
    requires Bounded(d)
    ensures Modest(d, ApplyNumber(op, d)) && Used(ApplyNumber(op, d)) == d.used
  {
    hide Push, Pop, PopNumber, UnaryValue, IsTrue, ApplyPair, FromI64, AllShort;
    PushesAreModest(d);
    if op.Pair? && PopNumber(d).Good? && PopNumber(PopNumber(d).value.1).Good? {
      var (b, d1) := PopNumber(d).value;
      var (a, d2) := PopNumber(d1).value;
      PairIsModest(op.pair, a, b, d, d2);
    }
  }

  lemma TxIsModest(op: TxOp, d: Data, h: Host)
    requires Bounded(d)
    ensures Modest(d, ApplyTx(op, d, h)) && Used(ApplyTx(op, d, h)) == d.used
  {
    hide Push, Pop, PopNumber, MultiSig, LookUp, FromI64, ToI64, AllShort;
    PushesAreModest(d);
  }

  lemma PaidIsModest(op: GasOp, d: Data, h: Host, limit: u64)
    requires Bounded(d)
    ensures Modest(d, ApplyPaid(op, d, h, limit))
  {
    if op.Sha256? || op.Hash256? || op.Hash160? {
      HashIsModest(op, d, h, limit);
    } else {
      StateIsModest(op, d, h, limit);
    }
  }

  lemma HashIsModest(op: GasOp, d: Data, h: Host, limit: u64)
    requires Bounded(d) && (op.Sha256? || op.Hash256? || op.Hash160?)
    ensures Modest(d, ApplyPaid(op, d, h, limit))
  {
    hide Pop, Words, Fits;
  }

  lemma StateIsModest(op: GasOp, d: Data, h: Host, limit: u64)
    requires Bounded(d) && !op.Sha256? && !op.Hash256? && !op.Hash160?
    ensures Modest(d, ApplyPaid(op, d, h, limit))
  {
    hide Pop, PayToHash, Fits;
  }

  lemma ApplyIsModest(op: Op, d: Data, h: Host, limit: u64)
    requires Bounded(d)
    ensures Modest(d, Apply(op, d, h, limit))
    ensures !op.OnPaid? ==> Used(Apply(op, d, h, limit)) == d.used
  {
    hide Modest, ApplyFlow, ApplyStack, ApplyBytes, ApplyNumber, ApplyTx, ApplyPaid;
    match op
    case OnFlow(f) => FlowIsModest(f, d);
    case OnStack(s) => StackIsModest(s, d);
    case OnBytes(b) => BytesIsModest(b, d);
    case OnNumber(n) => NumberIsModest(n, d);
    case OnTx(t) => TxIsModest(t, d, h);
    case OnPaid(g) => PaidIsModest(g, d, h, limit);
  }

  // The invariant of every run: three elements per counted opcode at most, and only short elements.
  predicate Inv(m: Machine) {
    Bounded(m.d) && Size(m.d) <= 3 * m.ops && m.ops <= MAX_OPS_PER_SCRIPT
  }

  predicate KeepsInv(r: Res<Machine>) {
    match r
    case Good(m) => Inv(m)
    case Bad(e, _) => e != StackOverflow
  }

  lemma StepKeepsInv(script: seq<u8>, m: Machine, h: Host, limit: u64)
    requires m.pc < |script| && Inv(m)
    ensures KeepsInv(Step(script, m, h, limit))
  {
    hide Apply, Decode, Operand, IsTrue;
    match Tick(m.(pc := m.pc + 1), limit)
    case Bad(_, _) =>
    case Good(t) =>
      var b := script[m.pc];
      assert Bounded(t.d) && Size(t.d) == Size(m.d) && t.ops == m.ops + 1;
      if !IsPush(b) && !IsControl(b) {
        ApplyIsModest(Decode(b), t.d, h, limit);
      }
  }

  // Every machine a run passes through, not only the last one, keeps the invariant.
  function RunFor(n: nat, script: seq<u8>, m: Machine, h: Host, limit: u64): Res<Machine> {
    if n == 0 || m.pc >= |script| then Good(m)
    else
      var m1 :- Step(script, m, h, limit);
      RunFor(n - 1, script, m1, h, limit)
  }

  lemma {:induction false} RunForKeepsInv(n: nat, script: seq<u8>, m: Machine, h: Host, limit: u64)
    requires Inv(m)
    ensures KeepsInv(RunFor(n, script, m, h, limit))
  {
    hide Step, Inv;
    if n > 0 && m.pc < |script| {
      StepKeepsInv(script, m, h, limit);
      match Step(script, m, h, limit)
      case Good(m1) => RunForKeepsInv(n - 1, script, m1, h, limit);
      case Bad(_, _) =>
    }
  }

  lemma {:induction false} RunKeepsInv(script: seq<u8>, m: Machine, h: Host, limit: u64)
    requires Inv(m)
    ensures KeepsInv(Run(script, m, h, limit))
    decreases |script| - m.pc
  {
    hide Step, Inv;
    if m.pc < |script| {
      StepKeepsInv(script, m, h, limit);
      match Step(script, m, h, limit)
      case Good(m1) => RunKeepsInv(script, m1, h, limit);
      case Bad(_, _) =>
    }
  }

  // From a fresh VM, at any point of the unlocking script or of the locking script after it.
  lemma StacksStaySmall(n: nat, input: seq<u8>, script: seq<u8>, h: Host, limit: u64)
    ensures match RunFor(n, input, FRESH, h, limit)
            case Bad(e, _) => e != StackOverflow
            case Good(m) => Bounded(m.d) && Size(m.d) <= 3 * m.ops <= 603
    ensures Run(input, FRESH, h, limit).Good? ==>
              match RunFor(n, script, Run(input, FRESH, h, limit).value.(pc := 0), h, limit)
              case Bad(e, _) => e != StackOverflow
              case Good(m) => Bounded(m.d) && Size(m.d) <= 3 * m.ops <= 603
  {
    hide Step;
    RunForKeepsInv(n, input, FRESH, h, limit);
    RunKeepsInv(input, FRESH, h, limit);
    if Run(input, FRESH, h, limit).Good? {
      RunForKeepsInv(n, script, Run(input, FRESH, h, limit).value.(pc := 0), h, limit);
    }
  }

  // So the stack limit of the source is never the reason for a failure.
  lemma StackOverflowUnreachable(bytecode: seq<u8>, input: seq<u8>, h: Host, limit: u64)
    ensures Execute(bytecode, input, FRESH, h, limit).error != Some(StackOverflow)
  {
    hide Step;
    if |bytecode| >= 4 {
      var script := bytecode[4..];
      RunKeepsInv(input, FRESH, h, limit);
      RunKeepsInv(script, FRESH, h, limit);
      if Run(input, FRESH, h, limit).Good? {
        RunKeepsInv(script, Run(input, FRESH, h, limit).value.(pc := 0), h, limit);
      }
    }
  }

  // ---------- Gas ----------

  function UsedBy(r: Res<Machine>): u64 {
    match r
    case Good(m) => m.d.used
    case Bad(_, used) => used
  }

  // The outcome under a low limit against the outcome under a higher one: the same if the higher run
  // stays within the low limit, and otherwise out of gas with exactly the low limit used.
  predicate Agree<T(==)>(r1: Res<T>, r2: Res<T>, used2: u64, low: u64) {
    if used2 <= low then r1 == r2 else r1 == Bad(OutOfGas, low)
  }

  lemma SpendAgrees(d: Data, amount: nat, low: u64, high: u64)
    requires d.used <= low <= high
    ensures match Spend(d, amount, high)
            case Good(d2) =>
              && d.used <= d2.used <= high && d2 == d.(used := d2.used)
              && Spend(d, amount, low) == if d2.used <= low then Good(d2) else Bad(OutOfGas, low)
            case Bad(e, used) => Spend(d, amount, low) == Bad(OutOfGas, low) && e == OutOfGas && used == high
  {
  }

  lemma PayToHashAgrees(d: Data, low: u64, high: u64)
    requires d.used <= low <= high
    ensures match PayToHash(d, high)
            case Good((e, d2)) =>
              && d.used <= d2.used <= high
              && PayToHash(d, low) == if d2.used <= low then Good((e, d2)) else Bad(OutOfGas, low)
            case Bad(e, used) =>
              && d.used <= used
              && PayToHash(d, low) == if used <= low then Bad(e, used) else Bad(OutOfGas, low)
  {
    hide Words, Spend;
    SpendAgrees(d, SHA3_BASE, low, high);
    if Spend(d, SHA3_BASE, high).Good? {
      var d1 := Spend(d, SHA3_BASE, high).value;
      if d1.used <= low && Pop(d1).Good? {
        var (e, d2) := Pop(d1).value;
        SpendAgrees(d2, SHA3_WORD * Words(|e|), low, high);
      } else if Pop(d1).Good? {
        var (e, d2) := Pop(d1).value;
        SpendAgrees(d2, SHA3_WORD * Words(|e|), high, high);
      }
    }
  }

  lemma PaidAgrees(op: GasOp, d: Data, h: Host, low: u64, high: u64)
    requires d.used <= low <= high
    ensures var r2 := ApplyPaid(op, d, h, high);
            d.used <= Used(r2) && Agree(ApplyPaid(op, d, h, low), r2, Used(r2), low)
  {
    hide Pop, Spend, PayToHash;
    match op
    case Sha256 => PayToHashAgrees(d, low, high);
    case Hash256 => PayToHashAgrees(d, low, high);
    case Hash160 => SpendAgrees(d, SHA3_BASE, low, high);
    case StateGet => SpendAgrees(d, SLOAD, low, high);
    case StatePut => SpendAgrees(d, SSTORE_SET, low, high);
    case StateDelete => SpendAgrees(d, SSTORE_RESET, low, high);
    case EmitEvent => EmitAgrees(d, h, low, high);
  }

  lemma EmitAgrees(d: Data, h: Host, low: u64, high: u64)
    requires d.used <= low <= high
    ensures var r2 := ApplyPaid(EmitEvent, d, h, high);
            d.used <= Used(r2) && Agree(ApplyPaid(EmitEvent, d, h, low), r2, Used(r2), low)
  {
    hide Pop, Spend, PayToHash;
    SpendAgrees(d, LOG, low, high);
    if Spend(d, LOG, high).Good? {
      var d1 := Spend(d, LOG, high).value;
      if Pop(d1).Good? && Pop(Pop(d1).value.1).Good? {
        var (data, d2) := Pop(d1).value;
        var (_, d3) := Pop(d2).value;
        SpendAgrees(d3, LOG_DATA * |data|, if d1.used <= low then low else high, high);
      }
    }
  }

  lemma ApplyAgrees(op: Op, d: Data, h: Host, low: u64, high: u64)
    requires Bounded(d) && d.used <= low <= high
    ensures var r2 := Apply(op, d, h, high);
            d.used <= Used(r2) && Agree(Apply(op, d, h, low), r2, Used(r2), low)
  {
    hide ApplyFlow, ApplyStack, ApplyBytes, ApplyNumber, ApplyTx, ApplyPaid;
    ApplyIsModest(op, d, h, high);
    if op.OnPaid? {
      PaidAgrees(op.paid, d, h, low, high);
    }
  }

  lemma TickAgrees(m: Machine, low: u64, high: u64)
    requires m.d.used <= low <= high
    ensures var r2 := Tick(m, high);
            m.d.used <= UsedBy(r2) && Agree(Tick(m, low), r2, UsedBy(r2), low)
    ensures Inv(m) && Tick(m, high).Good? ==> Bounded(Tick(m, high).value.d)
  {
  }

  lemma StepAgrees(script: seq<u8>, m: Machine, h: Host, low: u64, high: u64)
    requires m.pc < |script| && Inv(m) && m.d.used <= low <= high
    ensures var r2 := Step(script, m, h, high);
            m.d.used <= UsedBy(r2) && Agree(Step(script, m, h, low), r2, UsedBy(r2), low)
  {
    hide Tick, Apply, Decode, Operand, IsTrue;
    var m' := m.(pc := m.pc + 1);
    TickAgrees(m', low, high);
    if Tick(m', high).Good? && UsedBy(Tick(m', high)) <= low {
      var t := Tick(m', high).value;
      var b := script[m.pc];
      if IsPush(b) {
        PushKeepsGas(script, t, b);
      } else if IsControl(b) {
        ControlKeepsGas(t, b);
      } else {
        ApplyAgrees(Decode(b), t.d, h, low, high);
      }
    } else if Tick(m', high).Good? {
      StepSpends(script, m, h, high);
    }
  }

  lemma PushKeepsGas(script: seq<u8>, t: Machine, b: u8)
    requires IsPush(b)
    ensures UsedBy(StepPush(script, t, b)) == t.d.used
  {
    hide Operand;
  }

  lemma ControlKeepsGas(t: Machine, b: u8)
    requires IsControl(b)
    ensures UsedBy(StepControl(t, b)) == t.d.used
  {
  }

  // A step never gives gas back.
  lemma StepSpends(script: seq<u8>, m: Machine, h: Host, limit: u64)
    requires m.pc < |script| && Inv(m) && m.d.used <= limit
    ensures match Tick(m.(pc := m.pc + 1), limit)
            case Good(t) => t.d.used <= UsedBy(Step(script, m, h, limit)) <= limit
            case Bad(_, used) => UsedBy(Step(script, m, h, limit)) == used
  {
    hide Tick, Apply, Decode, Operand, IsTrue;
    var m' := m.(pc := m.pc + 1);
    TickAgrees(m', limit, limit);
    match Tick(m', limit)
    case Bad(_, _) =>
    case Good(t) =>
      var b := script[m.pc];
      assert t.d.used <= limit by { TickWithin(m', limit); }
      if IsPush(b) {
        PushKeepsGas(script, t, b);
      } else if IsControl(b) {
        ControlKeepsGas(t, b);
      } else {
        ApplyAgrees(Decode(b), t.d, h, limit, limit);
        ApplyWithin(Decode(b), t.d, h, limit);
      }
  }

  lemma TickSpends(m: Machine, limit: u64)
    ensures m.d.used <= limit ==> m.d.used <= UsedBy(Tick(m, limit)) <= limit
  {
  }

  lemma TickWithin(m: Machine, limit: u64)
    requires m.d.used <= limit
    ensures UsedBy(Tick(m, limit)) <= limit
  {
  }

  lemma ApplyWithin(op: Op, d: Data, h: Host, limit: u64)
    requires Bounded(d) && d.used <= limit
    ensures Used(Apply(op, d, h, limit)) <= limit
  {
    hide ApplyFlow, ApplyStack, ApplyBytes, ApplyNumber, ApplyTx, ApplyPaid;
    ApplyIsModest(op, d, h, limit);
    if op.OnPaid? {
      PaidWithin(op.paid, d, h, limit);
    }
  }

  lemma PaidWithin(op: GasOp, d: Data, h: Host, limit: u64)
    requires d.used <= limit
    ensures Used(ApplyPaid(op, d, h, limit)) <= limit
  {
    hide Pop, Words;
  }

  lemma {:induction false} RunAgrees(script: seq<u8>, m: Machine, h: Host, low: u64, high: u64)
    requires Inv(m) && m.d.used <= low <= high
    ensures var r2 := Run(script, m, h, high);
            m.d.used <= UsedBy(r2) && Agree(Run(script, m, h, low), r2, UsedBy(r2), low)
    decreases |script| - m.pc
  {
    hide Step, Inv;
    if m.pc < |script| {
      StepAgrees(script, m, h, low, high);
      StepKeepsInv(script, m, h, high);
      match Step(script, m, h, high)
      case Bad(_, _) =>
      case Good(m1) =>
        if m1.d.used <= low {
          RunAgrees(script, m1, h, low, high);
        } else {
          StepSpends(script, m, h, high);
          RunSpends(script, m1, h, high);
        }
    }
  }

  lemma {:induction false} RunSpends(script: seq<u8>, m: Machine, h: Host, limit: u64)
    requires Inv(m) && m.d.used <= limit
    ensures m.d.used <= UsedBy(Run(script, m, h, limit)) <= limit
    decreases |script| - m.pc
  {
    hide Step, Inv, Tick;
    if m.pc < |script| {
      TickSpends(m.(pc := m.pc + 1), limit);
      StepSpends(script, m, h, limit);
      StepKeepsInv(script, m, h, limit);
      match Step(script, m, h, limit)
      case Bad(_, _) =>
      case Good(m1) => RunSpends(script, m1, h, limit);
    }
  }

  lemma RunBothAgrees(input: seq<u8>, script: seq<u8>, h: Host, low: u64, high: u64)
    requires low <= high
    ensures var r2 := RunBoth(input, script, FRESH, h, high);
            Agree(RunBoth(input, script, FRESH, h, low), r2, UsedBy(r2), low)
  {
    hide Run;
    RunAgrees(script, FRESH, h, low, high);
    RunAgrees(input, FRESH, h, low, high);
    RunKeepsInv(input, FRESH, h, high);
    RunSpends(input, FRESH, h, high);
    match Run(input, FRESH, h, high)
    case Bad(_, _) =>
    case Good(m1) =>
      RunSpends(script, m1.(pc := 0), h, high);
      if m1.d.used <= low {
        RunAgrees(script, m1.(pc := 0), h, low, high);
      }
  }

  // An execution that completes with G gas gives the same result under every limit from G on, and
  // under every limit below G runs out of gas, reporting that limit as the gas used.
  lemma KaspaGasMonotone(bytecode: seq<u8>, input: seq<u8>, h: Host, limit: u64, other: u64)
    requires 4 <= |bytecode| <= MAX_SCRIPT_SIZE + 4 && bytecode[..4] == KASPA_MAGIC
    requires RunBoth(input, bytecode[4..], FRESH, h, limit).Good?
    ensures var r, s := Execute(bytecode, input, FRESH, h, limit), Execute(bytecode, input, FRESH, h, other);
            if r.gasUsed <= other then s == r else s == Failed(other, OutOfGas)
  {
    hide Run, Verdict;
    RunBothAgrees(input, bytecode[4..], h, Min(limit, other), Max(limit, other));
    VerdictUses(RunBoth(input, bytecode[4..], FRESH, h, limit).value);
    RunBothWithin(input, bytecode[4..], h, limit);
  }

  lemma VerdictUses(m: Machine)
    ensures Verdict(m).gasUsed == m.d.used
  {
  }

  lemma RunBothWithin(input: seq<u8>, script: seq<u8>, h: Host, limit: u64)
    ensures UsedBy(RunBoth(input, script, FRESH, h, limit)) <= limit
  {
    hide Run;
    RunSpends(script, FRESH, h, limit);
    RunSpends(input, FRESH, h, limit);
    RunKeepsInv(input, FRESH, h, limit);
    match Run(input, FRESH, h, limit)
    case Bad(_, _) =>
    case Good(m1) => RunSpends(script, m1.(pc := 0), h, limit);
  }
}
