/** The Kaspa script VM as the object that `kaspa.rs` makes of it: methods that change the two stacks,
    the condition stack, the program counter, the store, the log and the meter in place.
    Every method is tied to the function of KaspaOps or KaspaInterpreter that says what it computes. */
module KaspaVM {
  import opened Ints
  import opened Results
  import opened Wrappers
  import opened Gas
  import opened LittleEndian
  import opened ScriptNumber
  import opened KaspaOps
  import opened KaspaInterpreter

  /** A value or the error that stops the script. */
  datatype Outcome<+T> = Value(v: T) | Fault(error: Error) {
    predicate IsFailure() {
      Fault?
    }

    function PropagateFailure<U>(): Outcome<U>
      requires Fault?
    {
      Fault(error)
    }

    function Extract(): T
      requires Value?
    {
      v
    }
  }

  class VM {
    var stack: seq<Elem>
    var altStack: seq<Elem>
    var store: map<Elem, Elem>
    var logs: seq<Log>
    var script: seq<u8>
    var pc: nat
    var execStack: seq<bool>
    var opCount: nat
    const meter: GasMeter
    const host: Host

    ghost function Contents(): Data
      reads this, meter
    {
      Data(stack, altStack, store, logs, meter.used)
    }

    ghost function View(): Machine
      reads this, meter
    {
      Machine(Contents(), execStack, pc, opCount)
    }

    // The outcome `r` and the present contents are the ones `spec` prescribes.
    ghost predicate Did(r: Outcome<()>, spec: Res<Data>)
      reads this, meter
    {
      match spec
      case Good(d) => r.Value? && Contents() == d
      case Bad(e, used) => r == Fault(e) && meter.used == used
    }

    ghost predicate Gave<T>(r: Outcome<T>, spec: Res<(T, Data)>)
      reads this, meter
    {
      match spec
      case Good((v, d)) => r == Value(v) && Contents() == d
      case Bad(e, used) => r == Fault(e) && meter.used == used
    }

    ghost predicate Moved(r: Outcome<()>, spec: Res<Machine>)
      reads this, meter
    {
      match spec
      case Good(m) => r.Value? && View() == m
      case Bad(e, used) => r == Fault(e) && meter.used == used
    }

    constructor (host: Host, gasLimit: u64)
      ensures View() == FRESH && script == []
      ensures this.host == host && meter.limit == gasLimit && fresh(meter)
    {
      stack, altStack, store, logs, script, pc, execStack, opCount := [], [], map[], [], [], 0, [], 0;
      meter := new GasMeter(gasLimit);
      this.host := host;
    }

    // ---------- Stack primitives ----------

    method Push(e: Elem) returns (r: Outcome<()>)
      modifies `stack
      ensures Did(r, KaspaOps.Push(old(Contents()), e))
    {
      if |stack| >= MAX_STACK_SIZE {
        return Fault(StackOverflow);
      }
      if |e| > MAX_ELEMENT_SIZE {
        return Fault(Exec("Element size exceeded"));
      }
      stack := stack + [e];
      return Value(());
    }

    method Pop() returns (r: Outcome<Elem>)
      modifies `stack
      ensures Gave(r, KaspaOps.Pop(old(Contents())))
    {
      if |stack| == 0 {
        return Fault(StackUnderflow);
      }
      r := Value(stack[|stack| - 1]);
      stack := stack[..|stack| - 1];
    }

    method PopNumber() returns (r: Outcome<i64>)
      modifies `stack
      ensures Gave(r, KaspaOps.PopNumber(old(Contents())))
    {
      var e :- Pop();
      var n := DecodeI64(e);
      match n
      case Ok(v) => return Value(v);
      case Err(_) => return Fault(Exec("Script number overflow"));
    }

    method PopTruth() returns (r: Outcome<bool>)
      modifies `stack
      ensures match KaspaOps.Pop(old(Contents()))
              case Good((e, d)) => r == Value(IsTrue(e)) && Contents() == d
              case Bad(e, used) => r == Fault(e) && meter.used == used
    {
      var e :- Pop();
      var truth := TestTrue(e);
      r := Value(truth);
    }

    method PushNumber(n: i64) returns (r: Outcome<()>)
      modifies `stack
      ensures Did(r, KaspaOps.Push(old(Contents()), FromI64(n)))
    {
      var e := EncodeI64(n);
      r := Push(e);
    }

    method Spend(amount: nat) returns (r: Outcome<()>)
      modifies meter
      ensures Did(r, KaspaOps.Spend(old(Contents()), amount, meter.limit))
      ensures View() == old(View()).(d := old(Contents()).(used := meter.used))
    {
      var ok := meter.Consume(amount);
      return if ok then Value(()) else Fault(OutOfGas);
    }

    // ---------- Operations ----------

    method DoFlow(op: FlowOp) returns (r: Outcome<()>)
      modifies `stack
      ensures Did(r, ApplyFlow(op, old(Contents())))
    {
      match op
      case Const(n) => r := PushNumber(n);
      case Nop => r := Value(());
      case Verify =>
        var truth :- PopTruth();
        r := if truth then Value(()) else Fault(Exec("OP_VERIFY failed"));
      case Return => r := Fault(Exec("OP_RETURN encountered"));
      case Invalid(b) => r := Fault(InvalidOpcode(b));
    }

    method DoStack(op: StackOp) returns (r: Outcome<()>)
      modifies `stack, `altStack
      ensures Did(r, ApplyStack(op, old(Contents())))
    {
      match op
      case ToAlt =>
        var e :- Pop();
        altStack := altStack + [e];
        r := Value(());
      case FromAlt =>
        if |altStack| == 0 {
          return Fault(Exec("Alt stack underflow"));
        }
        var e := altStack[|altStack| - 1];
        altStack := altStack[..|altStack| - 1];
        r := Push(e);
      case Drop =>
        var _ :- Pop();
        r := Value(());
      case Drop2 =>
        var _ :- Pop();
        var _ :- Pop();
        r := Value(());
      case Dup => r := Copy(1);
      case Dup2 => r := Copy(2);
      case Dup3 => r := Copy(3);
      case IfDup =>
        if |stack| > 0 {
          var top := stack[|stack| - 1];
          var truth := TestTrue(top);
          if truth {
            r := Push(top);
            return;
          }
        }
        r := Value(());
      case Depth => r := PushNumber(WrapI64(|stack|));
      case Over =>
        if |stack| < 2 {
          return Fault(StackUnderflow);
        }
        r := Push(stack[|stack| - 2]);
      case Pick => r := DoPick(false);
      case Roll => r := DoPick(true);
      case Nip => r := DoShuffle(op);
      case Rot => r := DoShuffle(op);
      case Swap => r := DoShuffle(op);
      case Tuck => r := DoShuffle(op);
    }

    method DoShuffle(op: StackOp) returns (r: Outcome<()>)
      requires op.Nip? || op.Rot? || op.Swap? || op.Tuck?
      modifies `stack
      ensures Did(r, ApplyStack(op, old(Contents())))
    {
      var n := |stack|;
      if n < if op.Rot? then 3 else 2 {
        return Fault(StackUnderflow);
      }
      match op {
        case Nip => stack := stack[..n - 2] + stack[n - 1..];
        case Rot =>
          stack := stack[n - 3 := stack[n - 2]][n - 2 := stack[n - 3]];
          stack := stack[n - 2 := stack[n - 1]][n - 1 := stack[n - 2]];
        case Swap => stack := stack[n - 1 := stack[n - 2]][n - 2 := stack[n - 1]];
        case Tuck => stack := stack[..n - 2] + [stack[n - 1]] + stack[n - 2..];
      }
      r := Value(());
    }

    method Copy(k: nat) returns (r: Outcome<()>)
      requires 1 <= k <= 3
      modifies `stack
      ensures Did(r, CopyTop(old(Contents()), k))
    {
      if |stack| < k {
        return Fault(StackUnderflow);
      }
      var top := stack[|stack| - k..];
      for i := 0 to k
        invariant PushAll(old(Contents()), top) == PushAll(Contents(), top[i..])
      {
        assert top[i..][1..] == top[i + 1..];
        var _ :- Push(top[i]);
      }
      r := Value(());
    }

    method DoPick(remove: bool) returns (r: Outcome<()>)
      modifies `stack
      ensures Did(r, ApplyStack(if remove then Roll else Pick, old(Contents())))
    {
      var k :- PopNumber();
      var i := WrapU64(k);
      if i >= |stack| {
        return Fault(StackUnderflow);
      }
      var at := |stack| - 1 - i;
      var e := stack[at];
      if remove {
        stack := stack[..at] + stack[at + 1..];
      }
      r := Push(e);
    }

    method DoBytes(op: BytesOp) returns (r: Outcome<()>)
      modifies `stack
      ensures Did(r, ApplyBytes(op, old(Contents())))
    {
      match op
      case Size =>
        if |stack| == 0 {
          return Fault(StackUnderflow);
        }
        r := PushNumber(WrapI64(|stack[|stack| - 1]|));
      case Invert =>
        var e :- Pop();
        var flipped := InvertAll(e);
        r := Push(flipped);
      case Cut(k) => r := DoCut(k);
      case Join(k) =>
        var b :- Pop();
        var a :- Pop();
        r := DoJoin(k, a, b);
    }

    method DoCut(op: CutKind) returns (r: Outcome<()>)
      modifies `stack
      ensures Did(r, ApplyCut(op, old(Contents())))
    {
      hide ApplyCut;
      match op
      case SubStr => r := DoSubStr();
      case LeftPart => r := DoLeft();
      case RightPart => r := DoRight();
    }

    method DoSubStr() returns (r: Outcome<()>)
      modifies `stack
      ensures Did(r, ApplyCut(SubStr, old(Contents())))
    {
      var size :- PopNumber();
      var begin :- PopNumber();
      var s :- Pop();
      var end := WrapU64(WrapU64(begin) + WrapU64(size));
      if end > |s| {
        return Fault(Exec("Substring out of range"));
      }
      if WrapU64(begin) > end {
        return Fault(Panic);
      }
      r := Push(s[WrapU64(begin)..end]);
    }

    method DoLeft() returns (r: Outcome<()>)
      modifies `stack
      ensures Did(r, ApplyCut(LeftPart, old(Contents())))
    {
      var size :- PopNumber();
      var s :- Pop();
      if WrapU64(size) > |s| {
        return Fault(Exec("Left size out of range"));
      }
      r := Push(s[..WrapU64(size)]);
    }

    method DoRight() returns (r: Outcome<()>)
      modifies `stack
      ensures Did(r, ApplyCut(RightPart, old(Contents())))
    {
      var size :- PopNumber();
      var s :- Pop();
      if WrapU64(size) > |s| {
        return Fault(Exec("Right size out of range"));
      }
      r := Push(s[|s| - WrapU64(size)..]);
    }

    method DoJoin(op: JoinKind, a: Elem, b: Elem) returns (r: Outcome<()>)
      modifies `stack
      ensures Did(r, ApplyJoin(op, a, b, old(Contents())))
    {
      match op
      case Cat =>
        if |a + b| > MAX_ELEMENT_SIZE {
          return Fault(Exec("Element size exceeded"));
        }
        r := Push(a + b);
      case Equal => r := Push(Truth(a == b));
      case EqualVerify => r := if a == b then Value(()) else Fault(Exec("OP_EQUALVERIFY failed"));
      case BitAnd => r := Push(Zip(a, b, AndByte));
      case BitOr => r := Push(Zip(a, b, OrByte));
      case BitXor => r := Push(Zip(a, b, XorByte));
    }

    method DoNumber(op: NumberOp) returns (r: Outcome<()>)
      modifies `stack
      ensures Did(r, ApplyNumber(op, old(Contents())))
    {
      match op
      case Unary(k) =>
        var a :- PopNumber();
        r := PushNumber(UnaryValue(k, a));
      case Not =>
        var truth :- PopTruth();
        r := Push(Truth(!truth));
      case NotZero =>
        var a :- PopNumber();
        r := Push(Truth(a != 0));
      case BoolAnd =>
        var b :- PopTruth();
        var a :- PopTruth();
        r := Push(Truth(a && b));
      case BoolOr =>
        var b :- PopTruth();
        var a :- PopTruth();
        r := Push(Truth(a || b));
      case Within =>
        var max :- PopNumber();
        var min :- PopNumber();
        var x :- PopNumber();
        r := Push(Truth(min <= x < max));
      case Pair(k) =>
        var b :- PopNumber();
        var a :- PopNumber();
        r := DoPair(k, a, b);
    }

    method DoPair(op: PairOp, a: i64, b: i64) returns (r: Outcome<()>)
      modifies `stack
      ensures Did(r, ApplyPair(op, a, b, old(Contents())))
    {
      match op
      case Compare(k) => r := Push(Truth(Holds(k, a, b)));
      case NumEqualVerify => r := if a == b then Value(()) else Fault(Exec("OP_NUMEQUALVERIFY failed"));
      case Binary(k) =>
        match BinaryValue(k, a, b, 0) {
          case Good(v) => r := PushNumber(v);
          case Bad(e, _) => r := Fault(e);
        }
    }

    method DoTx(op: TxOp) returns (r: Outcome<()>)
      modifies `stack
      ensures Did(r, ApplyTx(op, old(Contents()), host))
    {
      match op
      case CheckSig =>
        var key :- Pop();
        var sig :- Pop();
        r := Push(Truth(host.checkSig(sig, key)));
      case CheckSigVerify =>
        var key :- Pop();
        var sig :- Pop();
        r := if host.checkSig(sig, key) then Value(()) else Fault(Exec("Signature verification failed"));
      case CheckMultiSig =>
        var ok :- DoMultiSig();
        r := Push(Truth(ok));
      case CheckMultiSigVerify =>
        var ok :- DoMultiSig();
        r := if ok then Value(()) else Fault(Exec("MultiSig verification failed"));
      case CheckLockTime =>
        var t :- PeekNumber();
        if t < 0 {
          return Fault(Exec("Negative locktime"));
        }
        r := if host.tx.lockTime < t then Fault(Exec("Locktime not satisfied")) else Value(());
      case CheckSequence =>
        var q :- PeekNumber();
        if q < 0 {
          return Fault(Exec("Negative sequence"));
        }
        if host.tx.current < |host.tx.inputs| {
          if host.tx.inputs[host.tx.current].sequence < q {
            return Fault(Exec("Sequence not satisfied"));
          }
        }
        r := Value(());
      case InputIndex => r := PushNumber(WrapI64(host.tx.current));
      case OutputCount => r := PushNumber(WrapI64(|host.tx.outputs|));
      case InputCount => r := PushNumber(WrapI64(|host.tx.inputs|));
      case TxVersion => r := PushNumber(WrapI64(host.tx.version));
      case TxLockTime => r := PushNumber(WrapI64(host.tx.lockTime));
      case Lookup(k) =>
        var i :- PopNumber();
        r := Push(LookUp(k, WrapU64(i), host.tx));
    }

    method PeekNumber() returns (r: Outcome<i64>)
      ensures Gave(r, match Peek(Contents()) case Good(v) => Good((v, Contents())) case Bad(e, u) => Bad(e, u))
    {
      if |stack| == 0 {
        return Fault(StackUnderflow);
      }
      var n := DecodeI64(stack[|stack| - 1]);
      match n
      case Ok(v) => return Value(v);
      case Err(_) => return Fault(Exec("Script number overflow"));
    }

    method DoMultiSig() returns (r: Outcome<bool>)
      modifies `stack
      ensures Gave(r, MultiSig(old(Contents()), host))
    {
      var n :- PopNumber();
      var keys :- TakeMany(WrapU64(n));
      var m :- PopNumber();
      var sigs :- TakeMany(WrapU64(m));
      var _ :- Pop();
      r := Value(host.checkMultiSig(sigs, keys));
    }

    method TakeMany(n: nat) returns (r: Outcome<seq<Elem>>)
      modifies `stack
      ensures Gave(r, PopMany(old(Contents()), n))
    {
      var es: seq<Elem> := [];
      PrependNone(PopMany(Contents(), n));
      for i := 0 to n
        invariant PopMany(old(Contents()), n) == Prepend(es, PopMany(Contents(), n - i))
      {
        PrependOne(es, Contents(), n - i);
        var e :- Pop();
        es := es + [e];
      }
      assert es + [] == es;
      r := Value(es);
    }

    // ---------- Operations that cost extra gas ----------

    method DoPaid(op: GasOp) returns (r: Outcome<()>)
      modifies `stack, `store, `logs, meter
      ensures Did(r, ApplyPaid(op, old(Contents()), host, meter.limit))
    {
      match op
      case Sha256 =>
        var e :- TakeToHash();
        r := Push(host.sha256(e));
      case Hash256 =>
        var e :- TakeToHash();
        r := Push(host.sha256(host.sha256(e)));
      case Hash160 =>
        var _ :- Spend(SHA3_BASE);
        var e :- Pop();
        r := Push(host.sha256(e)[..Min(20, |host.sha256(e)|)]);
      case StateGet =>
        var _ :- Spend(SLOAD);
        var key :- Pop();
        r := Push(if key in store then store[key] else []);
      case StatePut =>
        var _ :- Spend(SSTORE_SET);
        var value :- Pop();
        var key :- Pop();
        store := store[key := value];
        r := Value(());
      case StateDelete =>
        var _ :- Spend(SSTORE_RESET);
        var key :- Pop();
        store := store - {key};
        r := Value(());
      case EmitEvent => r := DoEmit();
    }

    method DoEmit() returns (r: Outcome<()>)
      modifies `stack, `logs, meter
      ensures Did(r, ApplyPaid(EmitEvent, old(Contents()), host, meter.limit))
    {
      var _ :- Spend(LOG);
      var data :- Pop();
      var topic :- Pop();
      var _ :- Spend(LOG_DATA * |data|);
      logs := logs + [Log(host.sha3(topic), data)];
      r := Value(());
    }

    method TakeToHash() returns (r: Outcome<Elem>)
      modifies `stack, meter
      ensures Gave(r, PayToHash(old(Contents()), meter.limit))
    {
      var _ :- Spend(SHA3_BASE);
      var e :- Pop();
      var _ :- Spend(SHA3_WORD * Words(|e|));
      r := Value(e);
    }

    method DoOp(op: Op) returns (r: Outcome<()>)
      modifies `stack, `altStack, `store, `logs, meter
      ensures Did(r, Apply(op, old(Contents()), host, meter.limit))
    {
      match op
      case OnFlow(f) => r := DoFlow(f);
      case OnStack(s) => r := DoStack(s);
      case OnBytes(b) => r := DoBytes(b);
      case OnNumber(n) => r := DoNumber(n);
      case OnTx(t) => r := DoTx(t);
      case OnPaid(g) => r := DoPaid(g);
    }

    // ---------- Stepping ----------

    method Step() returns (r: Outcome<()>)
      requires pc < |script|
      modifies `stack, `altStack, `store, `logs, `pc, `execStack, `opCount, meter
      ensures Moved(r, KaspaInterpreter.Step(script, old(View()), host, meter.limit))
      ensures r.Value? ==> pc > old(pc)
    {
      hide Apply, AllTrue, Decode, StepPush;
      var b := script[pc];
      pc := pc + 1;
      var executing := AllTrue(execStack);
      var _ :- Spend(BASE);
      opCount := opCount + 1;
      if opCount > MAX_OPS_PER_SCRIPT {
        return Fault(Exec("Script opcode count exceeded"));
      }
      if IsPush(b) {
        r := DoPush(b, executing);
      } else if IsControl(b) {
        r := DoControl(b, executing);
      } else if executing {
        r := DoOp(Decode(b));
      } else {
        r := Value(());
      }
    }

    method DoPush(b: u8, executing: bool) returns (r: Outcome<()>)
      requires IsPush(b) && (executing <==> AllTrue(execStack))
      modifies `stack, `pc
      ensures Moved(r, StepPush(script, old(View()), b))
    {
      var k := LengthBytes(b);
      if pc + k > |script| {
        return Fault(Exec("Unexpected end of script"));
      }
      var len: nat := if k == 0 then b else LeValue(script[pc..pc + k]);
      pc := pc + k;
      if executing {
        if pc + len > |script| {
          return Fault(Exec("Unexpected end of script"));
        }
        var _ :- Push(script[pc..pc + len]);
      }
      pc := pc + len;
      r := Value(());
    }

    method DoControl(b: u8, executing: bool) returns (r: Outcome<()>)
      requires IsControl(b) && (executing <==> AllTrue(execStack))
      modifies `stack, `execStack
      ensures Moved(r, StepControl(old(View()), b))
    {
      var n := |execStack|;
      if b == OP_IF || b == OP_NOTIF {
        var cond := false;
        if executing {
          var truth :- PopTruth();
          cond := if b == OP_IF then truth else !truth;
        }
        execStack := execStack + [executing && cond];
      } else if b == OP_ELSE {
        if n == 0 {
          return Fault(Exec("OP_ELSE without OP_IF"));
        }
        if n == 1 || AllTrue(execStack[..n - 1]) {
          execStack := execStack[n - 1 := !execStack[n - 1]];
        }
      } else {
        if n == 0 {
          return Fault(Exec("OP_ENDIF without OP_IF"));
        }
        execStack := execStack[..n - 1];
      }
      r := Value(());
    }

    // Runs `code` from its start; afterwards the script and the program counter are what they were.
    method ExecuteScript(code: seq<u8>) returns (r: Outcome<()>)
      modifies this, meter
      ensures match Run(code, old(View()).(pc := 0), host, meter.limit)
              case Good(m) => r.Value? && View() == m.(pc := old(pc))
              case Bad(e, used) => r == Fault(e) && meter.used == used
      ensures pc == old(pc) && script == old(script)
    {
      var originalPc, originalScript := pc, script;
      script, pc := code, 0;
      while pc < |script|
        invariant script == code
        invariant Run(code, old(View()).(pc := 0), host, meter.limit) == Run(code, View(), host, meter.limit)
        decreases |script| - pc
      {
        var step := Step();
        if step.Fault? {
          script, pc := originalScript, originalPc;
          return step;
        }
      }
      script, pc := originalScript, originalPc;
      r := Value(());
    }

    // The unlocking script, if any, then the locking script.
    method RunScripts(input: seq<u8>) returns (r: Outcome<()>)
      requires pc == 0
      modifies this, meter
      ensures match RunBoth(input, old(script), old(View()), host, meter.limit)
              case Good(m) => r.Value? && View() == m.(pc := 0)
              case Bad(e, used) => r == Fault(e) && meter.used == used
    {
      hide Run;
      if |input| > 0 {
        r := ExecuteScript(input);
        if r.Fault? {
          return;
        }
      }
      r := ExecuteScript(script);
    }

    // On success the machine is left as the scripts left it, which a later execution starts from.
    method Execute(bytecode: seq<u8>, input: seq<u8>) returns (result: VMResult)
      modifies this, meter
      ensures result == KaspaInterpreter.Execute(bytecode, input, old(View()), host, meter.limit)
      ensures 4 <= |bytecode| <= MAX_SCRIPT_SIZE + 4 && bytecode[..4] == KASPA_MAGIC ==>
                match RunBoth(input, bytecode[4..], old(View()).(pc := 0), host, meter.limit)
                case Good(m) => View() == m.(pc := 0)
                case Bad(_, used) => meter.used == used
    {
      hide RunBoth;
      if |bytecode| < 4 || bytecode[..4] != KASPA_MAGIC {
        return Failed(0, Exec("Invalid Kaspa bytecode magic"));
      }
      if |bytecode| > MAX_SCRIPT_SIZE + 4 {
        return Failed(0, Exec("Script size exceeds maximum"));
      }
      script := bytecode[4..];
      pc := 0;
      StartsAtZero(input, script, old(View()), host, meter.limit);
      var done := RunScripts(input);
      if done.Fault? {
        return Failed(meter.used, done.error);
      }
      var success := false;
      if |stack| > 0 {
        success := TestTrue(stack[|stack| - 1]);
      }
      if success {
        result := VMResult(true, meter.used, stack[|stack| - 1], None, logs);
      } else {
        result := VMResult(false, meter.used, [], Some(Exec("Script failed: false on stack")), logs);
      }
    }
  }

  lemma StartsAtZero(input: seq<u8>, script: seq<u8>, m: Machine, h: Host, limit: u64)
    ensures RunBoth(input, script, m, h, limit) == RunBoth(input, script, m.(pc := 0), h, limit)
  {
    hide Run;
  }

  method InvertAll(e: Elem) returns (flipped: Elem)
    ensures flipped == seq(|e|, i requires 0 <= i < |e| => 255 - e[i])
  {
    flipped := e;
    for k := 0 to |e|
      invariant |flipped| == |e|
      invariant forall i :: 0 <= i < |e| ==> flipped[i] == if i < k then 255 - e[i] else e[i]
    {
      flipped := flipped[k := 255 - flipped[k]];
    }
  }

  function Prepend(es: seq<Elem>, rest: Res<(seq<Elem>, Data)>): Res<(seq<Elem>, Data)> {
    match rest
    case Good((more, d)) => Good((es + more, d))
    case Bad(e, used) => Bad(e, used)
  }

  lemma PrependNone(rest: Res<(seq<Elem>, Data)>)
    ensures Prepend([], rest) == rest
  {
    match rest
    case Good((more, _)) => assert [] + more == more;
    case Bad(_, _) =>
  }

  lemma PrependOne(es: seq<Elem>, d: Data, n: nat)
    requires n > 0
    ensures Prepend(es, PopMany(d, n)) ==
            match KaspaOps.Pop(d)
            case Good((e, d1)) => Prepend(es + [e], PopMany(d1, n - 1))
            case Bad(e, used) => Bad(e, used)
  {
    match KaspaOps.Pop(d)
    case Bad(_, _) =>
    case Good((e, d1)) =>
      match PopMany(d1, n - 1)
      case Bad(_, _) =>
      case Good((more, _)) => assert es + ([e] + more) == (es + [e]) + more;
  }
}
