/** When a Kaspa script panics: only in a substring whose end wraps around. */
module KaspaPanics {
  import opened Ints
  import opened Results
  import opened Gas
  import opened ScriptNumber
  import opened KaspaOps
  import opened KaspaInterpreter
  import opened KaspaResources

  predicate Panics<T>(r: Res<T>) {
    r.Bad? && r.error == Panic
  }

  // On top lie a size and a begin, as unsigned numbers with a sum past 2^64 that wraps around to within the
  // element below them. One of them is then negative.
  predicate CutsAround(d: Data) {
    && |d.stack| >= 3 && ToI64(Top(d.stack, 0)).Ok? && ToI64(Top(d.stack, 1)).Ok?
    && var size, begin := ToI64(Top(d.stack, 0)).value, ToI64(Top(d.stack, 1)).value;
       WrapU64(begin) + WrapU64(size) >= U64 && WrapU64(begin + size) <= |Top(d.stack, 2)|
  }

  const OP_SUBSTR: u8 := 0x7f

  // ---------- Operations ----------

  lemma SubStrPanicsIff(d: Data)
    ensures Panics(ApplyCut(SubStr, d)) <==> CutsAround(d)
  {
    hide Push, ToI64, WrapU64;
    PushDoesNotPanic();
    var n := |d.stack|;
    if n >= 3 && ToI64(Top(d.stack, 0)).Ok? && ToI64(Top(d.stack, 1)).Ok? {
      SumWrapsOnce(ToI64(Top(d.stack, 1)).value, ToI64(Top(d.stack, 0)).value);
    }
  }

  lemma PushDoesNotPanic()
    ensures forall d, e :: !Panics(Push(d, e))
  {
  }

  lemma SumWrapsOnce(begin: i64, size: i64)
    ensures var end := WrapU64(WrapU64(begin) + WrapU64(size));
            end == WrapU64(begin + size) && (WrapU64(begin) > end <==> WrapU64(begin) + WrapU64(size) >= U64)
  {
  }

  lemma CutPanicsIff(op: CutKind, d: Data)
    ensures Panics(ApplyCut(op, d)) <==> op == SubStr && CutsAround(d)
  {
    hide Push, ToI64, CutsAround;
    PushDoesNotPanic();
    SubStrPanicsIff(d);
  }

  lemma JoinDoesNotPanic(op: JoinKind, a: Elem, b: Elem, d: Data)
    ensures !Panics(ApplyJoin(op, a, b, d))
  {
    hide Push, Zip;
    PushDoesNotPanic();
  }

  lemma BytesPanicsIff(op: BytesOp, d: Data)
    ensures Panics(ApplyBytes(op, d)) <==> op.Cut? && op.cut == SubStr && CutsAround(d)
  {
    hide Push, FromI64, ApplyJoin, ApplyCut, CutsAround;
    match op
    case Cut(k) => CutPanicsIff(k, d);
    case Join(k) =>
      forall a, b, d1 ensures !Panics(ApplyJoin(k, a, b, d1)) {
        JoinDoesNotPanic(k, a, b, d1);
      }
    case _ => PushDoesNotPanic();
  }

  lemma FlowDoesNotPanic(op: FlowOp, d: Data)
    ensures !Panics(ApplyFlow(op, d))
  {
  }

  lemma {:induction false} PushAllDoesNotPanic(d: Data, es: seq<Elem>)
    ensures !Panics(PushAll(d, es))
    decreases |es|
  {
    if es != [] && Push(d, es[0]).Good? {
      PushAllDoesNotPanic(Push(d, es[0]).value, es[1..]);
    }
  }

  lemma StackDoesNotPanic(op: StackOp, d: Data)
    ensures !Panics(ApplyStack(op, d))
  {
    hide Push, Pop, PopNumber, FromI64, IsTrue, CopyTop;
    PushDoesNotPanic();
    CopyDoesNotPanic(d, 1);
    CopyDoesNotPanic(d, 2);
    CopyDoesNotPanic(d, 3);
  }

  lemma CopyDoesNotPanic(d: Data, k: nat)
    requires k <= 3
    ensures !Panics(CopyTop(d, k))
  {
    if |d.stack| >= k {
      PushAllDoesNotPanic(d, d.stack[|d.stack| - k..]);
    }
  }

  // A popped number is never the least i64, so no quotient overflows.
  lemma NumberDoesNotPanic(op: NumberOp, d: Data)
    ensures !Panics(ApplyNumber(op, d))
  {
    hide Push, Pop, PopNumber, FromI64, IsTrue, UnaryValue, TruncDiv, TruncMod, WrapI64, Ints.Pow2, Holds;
    PushDoesNotPanic();
  }

  lemma TxDoesNotPanic(op: TxOp, d: Data, h: Host)
    ensures !Panics(ApplyTx(op, d, h))
  {
    hide Push, Pop, PopNumber, MultiSig, LookUp, FromI64, ToI64;
    PushDoesNotPanic();
  }

  lemma PaidDoesNotPanic(op: GasOp, d: Data, h: Host, limit: u64)
    ensures !Panics(ApplyPaid(op, d, h, limit))
  {
    hide Push, Pop, Words, Fits;
    PushDoesNotPanic();
  }

  lemma ApplyPanicsIff(op: Op, d: Data, h: Host, limit: u64)
    ensures Panics(Apply(op, d, h, limit)) <==> op == OnBytes(Cut(SubStr)) && CutsAround(d)
  {
    hide ApplyFlow, ApplyStack, ApplyBytes, ApplyNumber, ApplyTx, ApplyPaid, CutsAround;
    match op
    case OnFlow(f) => FlowDoesNotPanic(f, d);
    case OnStack(s) => StackDoesNotPanic(s, d);
    case OnBytes(b) => BytesPanicsIff(b, d);
    case OnNumber(n) => NumberDoesNotPanic(n, d);
    case OnTx(t) => TxDoesNotPanic(t, d, h);
    case OnPaid(g) => PaidDoesNotPanic(g, d, h, limit);
  }

  // ---------- Steps and runs ----------

  // The step executes OP_SUBSTR on such operands, and can pay for it.
  predicate CutsNext(script: seq<u8>, m: Machine, limit: u64) {
    && m.pc < |script| && script[m.pc] == OP_SUBSTR && AllTrue(m.exec) && Tick(m, limit).Good? && CutsAround(m.d)
  }

  lemma OnlySubStr(b: u8)
    ensures Decode(b) == OnBytes(Cut(SubStr)) <==> b == OP_SUBSTR
  {
  }

  lemma StepPanicsIff(script: seq<u8>, m: Machine, h: Host, limit: u64)
    requires m.pc < |script|
    ensures Panics(Step(script, m, h, limit)) <==> CutsNext(script, m, limit)
  {
    hide Apply, Decode, Operand, IsTrue, CutsAround;
    var m' := m.(pc := m.pc + 1);
    OnlySubStr(script[m.pc]);
    SameBelow(m, m', limit);
    if Tick(m', limit).Good? {
      ApplyPanicsIff(Decode(script[m.pc]), Tick(m', limit).value.d, h, limit);
    }
  }

  lemma SameBelow(m: Machine, m': Machine, limit: u64)
    requires m'.d == m.d && m'.exec == m.exec && m'.ops == m.ops
    ensures Tick(m, limit).Good? <==> Tick(m', limit).Good?
    ensures !Panics(Tick(m', limit))
    ensures Tick(m', limit).Good? ==>
              Tick(m', limit).value.exec == m.exec && (CutsAround(Tick(m', limit).value.d) <==> CutsAround(m.d))
  {
  }

  // The n-th machine of the run is about to execute such a substring.
  predicate CutsAt(n: nat, script: seq<u8>, m: Machine, h: Host, limit: u64) {
    RunFor(n, script, m, h, limit).Good? && CutsNext(script, RunFor(n, script, m, h, limit).value, limit)
  }

  // A script panics if and only if its run gets to such a substring.
  lemma {:induction false} RunPanicsIff(script: seq<u8>, m: Machine, h: Host, limit: u64)
    ensures Panics(Run(script, m, h, limit)) <==> exists n: nat :: CutsAt(n, script, m, h, limit)
    decreases |script| - m.pc
  {
    hide Step, CutsNext;
    if m.pc < |script| {
      StepPanicsIff(script, m, h, limit);
      match Step(script, m, h, limit)
      case Bad(_, _) =>
        assert CutsAt(0, script, m, h, limit) <==> CutsNext(script, m, limit);
      case Good(m1) =>
        RunPanicsIff(script, m1, h, limit);
        if n: nat :| CutsAt(n, script, m, h, limit) {
          assert CutsAt(n - 1, script, m1, h, limit);
        }
        if n: nat :| CutsAt(n, script, m1, h, limit) {
          assert CutsAt(n + 1, script, m, h, limit);
        }
    } else {
      NothingNext(script, m, limit);
    }
  }

  lemma NothingNext(script: seq<u8>, m: Machine, limit: u64)
    requires m.pc >= |script|
    ensures !CutsNext(script, m, limit)
  {
  }

  // Such a script: OP_0, OP_1NEGATE, OP_1, OP_SUBSTR, the part of an empty element from -1 with size 1.
  const CUT_BEFORE_START: seq<u8> := [0x00, 0x4f, 0x51, OP_SUBSTR]

  lemma CutBeforeStartPanics(h: Host, limit: u64)
    requires limit >= 4 * BASE
    ensures Panics(Run(CUT_BEFORE_START, FRESH, h, limit))
  {
    hide Run, Step, Decode, FromI64, CutsNext;
    var script := CUT_BEFORE_START;
    ConstantCodes();
    var m1 := StepPushesNumber(script, FRESH, 0, h, limit);
    var m2 := StepPushesNumber(script, m1, -1, h, limit);
    var m3 := StepPushesNumber(script, m2, 1, h, limit);
    assert m3.d.stack == [FromI64(0), FromI64(-1), FromI64(1)];
    NumbersCutAround(script, m3, limit);
    StepPanicsIff(script, m3, h, limit);
    RunTakesStep(script, FRESH, h, limit);
    RunTakesStep(script, m1, h, limit);
    RunTakesStep(script, m2, h, limit);
    RunTakesStep(script, m3, h, limit);
  }

  lemma ConstantCodes()
    ensures Decode(0x00) == OnFlow(Const(0)) && Decode(0x4f) == OnFlow(Const(-1)) && Decode(0x51) == OnFlow(Const(1))
  {
  }

  lemma NumbersCutAround(script: seq<u8>, m: Machine, limit: u64)
    requires m.pc < |script| && script[m.pc] == OP_SUBSTR && m.exec == [] && m.ops < MAX_OPS_PER_SCRIPT
    requires m.d.stack == [FromI64(0), FromI64(-1), FromI64(1)] && m.d.used + BASE <= limit
    ensures CutsNext(script, m, limit)
  {
    hide FromI64, ToI64;
    SmallNumbers();
  }

  lemma RunTakesStep(script: seq<u8>, m: Machine, h: Host, limit: u64)
    requires m.pc < |script|
    ensures var next := Step(script, m, h, limit);
            Run(script, m, h, limit) == if next.Good? then Run(script, next.value, h, limit) else next
  {
    hide Step;
  }

  lemma SmallNumbers()
    ensures forall n :: -1 <= n <= 1 ==> ToI64(FromI64(n)) == Ok(n)
    ensures FromI64(0) == []
  {
    forall n | -1 <= n <= 1 ensures ToI64(FromI64(n)) == Ok(n) {
      RoundTripNumber(n);
    }
    ZeroHasNoBytes();
  }

  lemma StepPushesNumber(script: seq<u8>, m: Machine, n: i64, h: Host, limit: u64) returns (m1: Machine)
    requires m.pc < |script| && !IsPush(script[m.pc]) && !IsControl(script[m.pc])
    requires Decode(script[m.pc]) == OnFlow(Const(n)) && -1 <= n <= 1
    requires m.exec == [] && m.ops < MAX_OPS_PER_SCRIPT && |m.d.stack| < MAX_STACK_SIZE && m.d.used + BASE <= limit
    ensures Step(script, m, h, limit) == Good(m1)
    ensures m1 == m.(pc := m.pc + 1, ops := m.ops + 1,
                     d := m.d.(stack := m.d.stack + [FromI64(n)], used := m.d.used + BASE))
  {
    m1 := m.(pc := m.pc + 1, ops := m.ops + 1, d := m.d.(stack := m.d.stack + [FromI64(n)], used := m.d.used + BASE));
    SmallNumbers();
    assert |FromI64(n)| <= 8;
  }
}
