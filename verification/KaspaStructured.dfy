/** Structured Kaspa scripts: programs with nested conditionals, their flat encoding, their direct
    execution, and the proof that the condition-stack interpreter runs the encoding as intended. */
module KaspaStructured {
  import opened Ints
  import opened Wrappers
  import opened LittleEndian
  import opened ScriptNumber
  import opened KaspaOps
  import opened KaspaInterpreter

  // ---------- Instructions and their encoding ----------

  datatype Instr = PushData(data: Elem) | Plain(byte: u8)

  // What the PUSH case of the compiler emits, with its cast of the length to 16 bits.
  function EncodePush(data: Elem): seq<u8> {
    var n := |data|;
    if n <= 75 then [n] + data
    else if n <= 255 then [0x4c, n] + data
    else [0x4d, n % 256, (n / 256) % 256] + data
  }

  function Encode(i: Instr): (code: seq<u8>)
    ensures |code| >= 1
  {
    match i
    case PushData(data) => EncodePush(data)
    case Plain(b) => [b]
  }

  predicate Encodable(i: Instr) {
    match i
    case PushData(data) => |data| < 0x1_0000
    case Plain(b) => b != 0 && !IsPush(b) && !IsControl(b)
  }

  // Running one instruction when it is executed.
  function Perform(i: Instr, d: Data, h: Host, limit: u64): Res<Data> {
    match i
    case PushData(data) => Push(d, data)
    case Plain(b) => Apply(Decode(b), d, h, limit)
  }

  // ---------- Programs ----------

  /** A conditional holds one or more branches separated by OP_ELSE; they are taken alternately. */
  datatype Prog = Done | Then(first: Instr, rest: Prog) | Cond(negated: bool, branches: Branches, after: Prog)
  datatype Branches = Single(body: Prog) | Alternate(body: Prog, others: Branches)

  function Flat(p: Prog): seq<u8> {
    match p
    case Done => []
    case Then(i, rest) => Encode(i) + Flat(rest)
    case Cond(negated, bs, after) => [if negated then OP_NOTIF else OP_IF] + FlatBranches(bs) + [OP_ENDIF] + Flat(after)
  }

  function FlatBranches(bs: Branches): seq<u8> {
    match bs
    case Single(p) => Flat(p)
    case Alternate(p, others) => Flat(p) + [OP_ELSE] + FlatBranches(others)
  }

  predicate Encodes(p: Prog) {
    match p
    case Done => true
    case Then(i, rest) => Encodable(i) && Encodes(rest)
    case Cond(_, bs, after) => EncodesBranches(bs) && Encodes(after)
  }

  predicate EncodesBranches(bs: Branches) {
    match bs
    case Single(p) => Encodes(p)
    case Alternate(p, others) => Encodes(p) && EncodesBranches(others)
  }

  // How many opcodes a program has.
  function OpCount(p: Prog): nat {
    match p
    case Done => 0
    case Then(_, rest) => 1 + OpCount(rest)
    case Cond(_, bs, after) => 2 + OpCountBranches(bs) + OpCount(after)
  }

  function OpCountBranches(bs: Branches): nat {
    match bs
    case Single(p) => OpCount(p)
    case Alternate(p, others) => OpCount(p) + 1 + OpCountBranches(others)
  }

  // ---------- Direct execution ----------

  /** The data and the opcodes counted so far; no program counter and no condition stack. */
  datatype Budget = Budget(d: Data, ops: nat)

  function Pay(c: Budget, limit: u64): Res<Budget> {
    var m :- Tick(Machine(c.d, [], 0, c.ops), limit);
    Good(Budget(m.d, m.ops))
  }

  // Paying for n opcodes that are skipped: nothing but gas and the opcode count changes.
  function PayFor(n: nat, c: Budget, limit: u64): Res<Budget> {
    if n == 0 then Good(c)
    else
      var c1 :- Pay(c, limit);
      PayFor(n - 1, c1, limit)
  }

  function Exec(p: Prog, c: Budget, h: Host, limit: u64): Res<Budget>
    decreases p, 0
  {
    match p
    case Done => Good(c)
    case Then(i, rest) =>
      var c1 :- Pay(c, limit);
      var d :- Perform(i, c1.d, h, limit);
      Exec(rest, c1.(d := d), h, limit)
    case Cond(negated, bs, after) =>
      var c1 :- Pay(c, limit);
      var (e, d) :- Pop(c1.d);
      var c2 :- ExecBranches(bs, IsTrue(e) != negated, c1.(d := d), h, limit);
      var c3 :- Pay(c2, limit);
      Exec(after, c3, h, limit)
  }

  // `taken` says whether the first branch is executed; the following ones alternate.
  function ExecBranches(bs: Branches, taken: bool, c: Budget, h: Host, limit: u64): Res<Budget>
    decreases bs, 0
  {
    match bs
    case Single(p) => ExecBranch(p, taken, c, h, limit)
    case Alternate(p, others) =>
      var c1 :- ExecBranch(p, taken, c, h, limit);
      var c2 :- Pay(c1, limit);
      ExecBranches(others, !taken, c2, h, limit)
  }

  function ExecBranch(p: Prog, taken: bool, c: Budget, h: Host, limit: u64): Res<Budget>
    decreases p, 1
  {
    if taken then Exec(p, c, h, limit) else PayFor(OpCount(p), c, limit)
  }

  // ---------- The instruction codec ----------

  // The instruction at pc and where the next one starts, read the way `step` reads it.
  function Fetch(script: seq<u8>, pc: nat): (r: Option<(Instr, nat)>)
    requires pc < |script|
    ensures r.Some? ==> pc < r.value.1 <= |script|
  {
    var b := script[pc];
    if b == 0 then Some((PushData([]), pc + 1))
    else if !IsPush(b) then Some((Plain(b), pc + 1))
    else
      match Operand(script, pc + 1, b)
      case Some((len, start)) =>
        if start + len <= |script| then Some((PushData(script[start..start + len]), start + len)) else None
      case None => None
  }

  function FetchAll(script: seq<u8>, pc: nat): Option<seq<Instr>>
    requires pc <= |script|
    decreases |script| - pc
  {
    if pc == |script| then Some([])
    else
      match Fetch(script, pc)
      case None => None
      case Some((i, next)) =>
        match FetchAll(script, next)
        case None => None
        case Some(more) => Some([i] + more)
  }

  function EncodeAll(instrs: seq<Instr>): seq<u8> {
    if instrs == [] then [] else Encode(instrs[0]) + EncodeAll(instrs[1..])
  }

  predicate At(script: seq<u8>, pc: nat, code: seq<u8>) {
    pc + |code| <= |script| && script[pc..pc + |code|] == code
  }

  lemma AtSplit(script: seq<u8>, pc: nat, a: seq<u8>, b: seq<u8>)
    requires At(script, pc, a + b)
    ensures At(script, pc, a) && At(script, pc + |a|, b)
  {
    assert (a + b)[..|a|] == a && (a + b)[|a|..] == b;
    assert script[pc..pc + |a + b|][..|a|] == script[pc..pc + |a|];
    assert script[pc..pc + |a + b|][|a|..] == script[pc + |a|..pc + |a| + |b|];
  }

  lemma AtByte(script: seq<u8>, pc: nat, b: u8)
    requires At(script, pc, [b])
    ensures pc < |script| && script[pc] == b
  {
    assert script[pc..pc + 1][0] == b;
  }

  lemma ValueOfLength(n: nat)
    requires n < 0x1_0000
    ensures LeValue([n % 256, (n / 256) % 256]) == n
    ensures n < 256 ==> LeValue([n]) == n
  {
    assert [n % 256, (n / 256) % 256][1..] == [(n / 256) % 256];
    assert LeValue([(n / 256) % 256]) == n / 256;
  }

  // A push is found again with exactly its data, and the next instruction starts right behind it.
  lemma FetchPush(script: seq<u8>, pc: nat, data: Elem)
    requires At(script, pc, EncodePush(data)) && |data| < 0x1_0000
    ensures Fetch(script, pc) == Some((PushData(data), pc + |EncodePush(data)|))
  {
    var code := EncodePush(data);
    var n := |data|;
    var head := code[..|code| - n];
    assert code == head + data;
    AtSplit(script, pc, head, data);
    assert forall k :: 0 <= k < |head| ==> script[pc..pc + |head|][k] == head[k];
    ValueOfLength(n);
    if n == 0 {
      assert script[pc] == 0;
    } else if n <= 75 {
      assert script[pc] == n;
    } else if n <= 255 {
      assert script[pc] == 0x4c && script[pc + 1] == n && script[pc + 1..pc + 2] == [n];
    } else {
      assert script[pc] == 0x4d && script[pc + 1] == n % 256 && script[pc + 2] == (n / 256) % 256;
      assert script[pc + 1..pc + 3] == [n % 256, (n / 256) % 256];
    }
  }

  lemma FetchEncoded(script: seq<u8>, pc: nat, i: Instr)
    requires At(script, pc, Encode(i)) && (Encodable(i) || (i.Plain? && IsControl(i.byte)))
    ensures Fetch(script, pc) == Some((i, pc + |Encode(i)|))
  {
    match i
    case PushData(data) => FetchPush(script, pc, data);
    case Plain(b) => assert script[pc..pc + 1] == [b];
  }

  lemma {:induction false} FetchAllEncoded(script: seq<u8>, pc: nat, instrs: seq<Instr>)
    requires pc + |EncodeAll(instrs)| == |script| && At(script, pc, EncodeAll(instrs))
    requires forall i :: i in instrs ==> Encodable(i) || (i.Plain? && IsControl(i.byte))
    ensures FetchAll(script, pc) == Some(instrs)
    decreases |instrs|
  {
    hide Fetch, Encode;
    if instrs != [] {
      AtSplit(script, pc, Encode(instrs[0]), EncodeAll(instrs[1..]));
      FetchEncoded(script, pc, instrs[0]);
      FetchAllEncoded(script, pc + |Encode(instrs[0])|, instrs[1..]);
      assert instrs == [instrs[0]] + instrs[1..];
    }
  }

  // Instruction codec: a compiled sequence of pushes and opcodes is read back as that sequence.
  lemma CodecRoundTrip(instrs: seq<Instr>)
    requires forall i :: i in instrs ==> Encodable(i) || (i.Plain? && IsControl(i.byte))
    ensures FetchAll(EncodeAll(instrs), 0) == Some(instrs)
  {
    var script := EncodeAll(instrs);
    assert script[0..|script|] == script;
    FetchAllEncoded(script, 0, instrs);
  }

  // The compiler keeps 16 bits of the length, so longer data is not read back.
  lemma PushReadBackIffShort(data: Elem)
    ensures Fetch(EncodePush(data), 0) == Some((PushData(data), |EncodePush(data)|)) <==> |data| < 0x1_0000
  {
    hide Fetch;
    var code := EncodePush(data);
    if |data| < 0x1_0000 {
      assert code[0..|code|] == code;
      FetchPush(code, 0, data);
    } else {
      LongLengthIsCut(data);
    }
  }

  lemma LongLengthIsCut(data: Elem)
    requires |data| >= 0x1_0000
    ensures var len := |data| % 0x1_0000;
            Fetch(EncodePush(data), 0) == Some((PushData(data[..len]), 3 + len))
  {
    hide LeValue;
    var code, n := EncodePush(data), |data|;
    assert code[1..3] == [n % 256, (n / 256) % 256];
    LowLength(n);
    ValueOfLength(n % 0x1_0000);
    assert code[3..3 + n % 0x1_0000] == data[..n % 0x1_0000];
  }

  lemma LowLength(n: nat)
    ensures n % 256 == n % 0x1_0000 % 256 && (n / 256) % 256 == n % 0x1_0000 / 256 % 256
  {
  }

  // ---------- One step at a time ----------

  // What a step on an encodable instruction does, whether it is executed or skipped.
  function StepInstr(i: Instr, m: Machine, h: Host, limit: u64): Res<Machine> {
    var t :- Tick(m, limit);
    var next := t.(pc := m.pc + |Encode(i)|);
    if AllTrue(m.exec) then
      var d :- Perform(i, t.d, h, limit);
      Good(next.(d := d))
    else Good(next)
  }

  // The step loop decodes an instruction: a push places exactly its data, and the program counter
  // moves by exactly the encoded length.
  lemma StepEncoded(script: seq<u8>, m: Machine, i: Instr, h: Host, limit: u64)
    requires At(script, m.pc, Encode(i)) && Encodable(i)
    ensures m.pc < |script| && Step(script, m, h, limit) == StepInstr(i, m, h, limit)
  {
    hide Apply, Push, Operand, EncodePush, AllTrue, Spend;
    FetchEncoded(script, m.pc, i);
    var b := script[m.pc];
    if b == 0 {
      assert Decode(b) == OnFlow(Const(0)) && FromI64(0) == [];
      if Tick(m, limit).Good? {
        ApplyConst(0, Tick(m, limit).value.d, h, limit);
      }
    }
  }

  lemma ApplyConst(n: i64, d: Data, h: Host, limit: u64)
    ensures Apply(OnFlow(Const(n)), d, h, limit) == Push(d, FromI64(n))
  {
    hide ApplyStack, ApplyBytes, ApplyNumber, ApplyTx, ApplyPaid, Push, FromI64;
  }

  // Running on from the outcome of a structured execution.
  function Resume(script: seq<u8>, r: Res<Budget>, exec: seq<bool>, pc: nat, h: Host, limit: u64): Res<Machine> {
    var c :- r;
    Run(script, Machine(c.d, exec, pc, c.ops), h, limit)
  }

  function BudgetOf(m: Machine): Budget {
    Budget(m.d, m.ops)
  }

  // A step that only pays: a skipped instruction, OP_ENDIF, OP_ELSE and a skipped OP_IF.
  lemma StepPaying(script: seq<u8>, m: Machine, exec: seq<bool>, pc: nat, h: Host, limit: u64)
    requires m.pc < |script|
    requires match Step(script, m, h, limit)
             case Good(m1) => Tick(m, limit).Good? && m1 == Tick(m, limit).value.(exec := exec, pc := pc)
             case Bad(e, u) => Tick(m, limit) == Bad(e, u)
    ensures Run(script, m, h, limit) == Resume(script, Pay(BudgetOf(m), limit), exec, pc, h, limit)
  {
    hide Step, Tick, Pay;
    TickIsPay(m, limit);
  }

  lemma TickIsPay(m: Machine, limit: u64)
    ensures match Tick(m, limit)
            case Good(t) => Pay(BudgetOf(m), limit) == Good(BudgetOf(t)) && t == Machine(t.d, m.exec, m.pc, t.ops)
            case Bad(e, used) => Pay(BudgetOf(m), limit) == Bad(e, used)
  {
  }

  lemma AllTrueOf(outer: seq<bool>, flag: bool)
    ensures AllTrue(outer + [flag]) <==> AllTrue(outer) && flag
    ensures (outer + [flag])[..|outer|] == outer
  {
    assert (outer + [flag])[|outer|] == flag;
    assert forall i :: 0 <= i < |outer| ==> (outer + [flag])[i] == outer[i];
  }

  // OP_ELSE turns the innermost flag around exactly when everything outside it is executed.
  lemma StepElse(script: seq<u8>, m: Machine, outer: seq<bool>, flag: bool, h: Host, limit: u64)
    requires m.pc < |script| && script[m.pc] == OP_ELSE && m.exec == outer + [flag]
    ensures Run(script, m, h, limit) ==
            Resume(script, Pay(BudgetOf(m), limit), outer + [if AllTrue(outer) then !flag else flag], m.pc + 1, h,
                   limit)
  {
    hide Run, Resume, Pay, Spend;
    AllTrueOf(outer, flag);
    StepPaying(script, m, outer + [if AllTrue(outer) then !flag else flag], m.pc + 1, h, limit);
  }

  lemma StepEndIf(script: seq<u8>, m: Machine, outer: seq<bool>, flag: bool, h: Host, limit: u64)
    requires m.pc < |script| && script[m.pc] == OP_ENDIF && m.exec == outer + [flag]
    ensures Run(script, m, h, limit) == Resume(script, Pay(BudgetOf(m), limit), outer, m.pc + 1, h, limit)
  {
    hide Run, Resume, Pay, Spend;
    AllTrueOf(outer, flag);
    StepPaying(script, m, outer, m.pc + 1, h, limit);
  }

  lemma StepSkippedIf(script: seq<u8>, m: Machine, h: Host, limit: u64)
    requires m.pc < |script| && (script[m.pc] == OP_IF || script[m.pc] == OP_NOTIF) && !AllTrue(m.exec)
    ensures Run(script, m, h, limit) ==
            Resume(script, Pay(BudgetOf(m), limit), m.exec + [false], m.pc + 1, h, limit)
  {
    StepPaying(script, m, m.exec + [false], m.pc + 1, h, limit);
  }

  lemma StepSkippedInstr(script: seq<u8>, m: Machine, i: Instr, h: Host, limit: u64)
    requires At(script, m.pc, Encode(i)) && Encodable(i) && !AllTrue(m.exec)
    ensures Run(script, m, h, limit) ==
            Resume(script, Pay(BudgetOf(m), limit), m.exec, m.pc + |Encode(i)|, h, limit)
  {
    hide Perform, Run, Resume, Pay, Tick, At, Encode, Step, AllTrue;
    TickIsPay(m, limit);
    StepEncoded(script, m, i, h, limit);
    StepPaying(script, m, m.exec, m.pc + |Encode(i)|, h, limit);
  }

  // ---------- Skipping ----------

  lemma {:induction false} PayForSum(a: nat, b: nat, c: Budget, limit: u64)
    ensures PayFor(a + b, c, limit) ==
            match PayFor(a, c, limit)
            case Good(c1) => PayFor(b, c1, limit)
            case Bad(e, u) => Bad(e, u)
  {
    if a > 0 {
      match Pay(c, limit)
      case Good(c1) => PayForSum(a - 1, b, c1, limit);
      case Bad(_, _) =>
    }
  }

  // A skipped program changes only the program counter, the opcode count and the gas used; the
  // condition stack ends as it began, at any nesting.
  lemma {:induction false} SkipProg(p: Prog, script: seq<u8>, m: Machine, h: Host, limit: u64)
    requires Encodes(p) && At(script, m.pc, Flat(p)) && !AllTrue(m.exec)
    ensures Run(script, m, h, limit) ==
            Resume(script, PayFor(OpCount(p), BudgetOf(m), limit), m.exec, m.pc + |Flat(p)|, h, limit)
    decreases p
  {
    hide Step, Tick, Run, Pay;
    match p
    case Done =>
    case Then(i, rest) =>
      AtSplit(script, m.pc, Encode(i), Flat(rest));
      StepSkippedInstr(script, m, i, h, limit);
      match Pay(BudgetOf(m), limit) {
        case Bad(_, _) =>
        case Good(c) =>
          SkipProg(rest, script, Machine(c.d, m.exec, m.pc + |Encode(i)|, c.ops), h, limit);
      }
    case Cond(negated, bs, after) => SkipCond(p, script, m, h, limit);
  }

  lemma {:induction false} SkipCond(p: Prog, script: seq<u8>, m: Machine, h: Host, limit: u64)
    requires Encodes(p) && At(script, m.pc, Flat(p)) && !AllTrue(m.exec) && p.Cond?
    ensures Run(script, m, h, limit) ==
            Resume(script, PayFor(OpCount(p), BudgetOf(m), limit), m.exec, m.pc + |Flat(p)|, h, limit)
    decreases p, 0
  {
    hide Step, Tick, Run, Pay, At, AllTrue;
    var bs, after := p.branches, p.after;
    var n, k := OpCountBranches(bs), |FlatBranches(bs)|;
    CondLayout(p, script, m.pc);
    StepSkippedIf(script, m, h, limit);
    match Pay(BudgetOf(m), limit) {
      case Bad(_, _) =>
      case Good(c) =>
        SkipBranches(bs, script, Machine(c.d, m.exec + [false], m.pc + 1, c.ops), m.exec, h, limit);
        PayForSum(n, 1 + OpCount(after), c, limit);
        match PayFor(n, c, limit) {
          case Bad(_, _) =>
          case Good(c1) =>
            StepEndIf(script, Machine(c1.d, m.exec + [false], m.pc + 1 + k, c1.ops), m.exec, false, h, limit);
            match Pay(c1, limit) {
              case Bad(_, _) =>
              case Good(c2) =>
                SkipProg(after, script, Machine(c2.d, m.exec, m.pc + 1 + k + 1, c2.ops), h, limit);
            }
        }
    }
  }

  lemma {:induction false} SkipBranches(bs: Branches, script: seq<u8>, m: Machine, outer: seq<bool>, h: Host,
                                        limit: u64)
    requires EncodesBranches(bs) && At(script, m.pc, FlatBranches(bs))
    requires m.exec == outer + [false] && !AllTrue(outer)
    ensures Run(script, m, h, limit) ==
            Resume(script, PayFor(OpCountBranches(bs), BudgetOf(m), limit), m.exec, m.pc + |FlatBranches(bs)|, h, limit)
    decreases bs
  {
    hide Step, Tick, Run, Pay;
    AllTrueOf(outer, false);
    match bs
    case Single(p) => SkipProg(p, script, m, h, limit);
    case Alternate(p, others) =>
      BranchLayout(bs, script, m.pc);
      SkipProg(p, script, m, h, limit);
      PayForSum(OpCount(p), 1 + OpCountBranches(others), BudgetOf(m), limit);
      match PayFor(OpCount(p), BudgetOf(m), limit) {
        case Bad(_, _) =>
        case Good(c) =>
          StepElse(script, Machine(c.d, m.exec, m.pc + |Flat(p)|, c.ops), outer, false, h, limit);
          match Pay(c, limit) {
            case Bad(_, _) =>
            case Good(c1) =>
              SkipBranches(others, script, Machine(c1.d, m.exec, m.pc + |Flat(p)| + 1, c1.ops), outer, h, limit);
          }
      }
  }

  lemma CondLayout(p: Prog, script: seq<u8>, pc: nat)
    requires p.Cond? && At(script, pc, Flat(p))
    ensures var k := |FlatBranches(p.branches)|;
            && pc + 1 + k < |script|
            && script[pc] == (if p.negated then OP_NOTIF else OP_IF)
            && At(script, pc + 1, FlatBranches(p.branches))
            && script[pc + 1 + k] == OP_ENDIF
            && At(script, pc + 1 + k + 1, Flat(p.after))
            && |Flat(p)| == 1 + k + 1 + |Flat(p.after)|
  {
    hide At;
    var op, fb, fa := [if p.negated then OP_NOTIF else OP_IF], FlatBranches(p.branches), Flat(p.after);
    AtSplit(script, pc, op + fb + [OP_ENDIF], fa);
    AtSplit(script, pc, op + fb, [OP_ENDIF]);
    AtSplit(script, pc, op, fb);
    AtByte(script, pc, op[0]);
    AtByte(script, pc + 1 + |fb|, OP_ENDIF);
  }

  lemma BranchLayout(bs: Branches, script: seq<u8>, pc: nat)
    requires bs.Alternate? && At(script, pc, FlatBranches(bs))
    ensures var k := |Flat(bs.body)|;
            && pc + k < |script|
            && At(script, pc, Flat(bs.body))
            && script[pc + k] == OP_ELSE
            && At(script, pc + k + 1, FlatBranches(bs.others))
            && |FlatBranches(bs)| == k + 1 + |FlatBranches(bs.others)|
  {
    hide At;
    var f := Flat(bs.body);
    AtSplit(script, pc, f + [OP_ELSE], FlatBranches(bs.others));
    AtSplit(script, pc, f, [OP_ELSE]);
    AtByte(script, pc + |f|, OP_ELSE);
  }

  // ---------- Executing ----------

  function LastFlag(bs: Branches, taken: bool): bool {
    match bs
    case Single(_) => taken
    case Alternate(_, others) => LastFlag(others, !taken)
  }

  // Where everything outside is executed, running the encoding of a program is executing the program:
  // same stacks, store, log, gas, opcode count and errors; and the condition stack is restored.
  lemma {:induction false} RunIsExec(p: Prog, script: seq<u8>, m: Machine, h: Host, limit: u64)
    requires Encodes(p) && At(script, m.pc, Flat(p)) && AllTrue(m.exec)
    ensures Run(script, m, h, limit) ==
            Resume(script, Exec(p, BudgetOf(m), h, limit), m.exec, m.pc + |Flat(p)|, h, limit)
    decreases p, 1, 1
  {
    hide Step, Tick, Run, Pay, Perform, Pop, ExecBranches, Encode;
    match p
    case Done =>
    case Then(i, rest) =>
      AtSplit(script, m.pc, Encode(i), Flat(rest));
      RunInstr(i, script, m, h, limit);
      match Pay(BudgetOf(m), limit) {
        case Bad(_, _) =>
        case Good(c) =>
          match Perform(i, c.d, h, limit) {
            case Bad(_, _) =>
            case Good(d) => RunIsExec(rest, script, Machine(d, m.exec, m.pc + |Encode(i)|, c.ops), h, limit);
          }
      }
    case Cond(_, _, _) => RunIsExecCond(p, script, m, h, limit);
  }

  lemma RunInstr(i: Instr, script: seq<u8>, m: Machine, h: Host, limit: u64)
    requires At(script, m.pc, Encode(i)) && Encodable(i) && AllTrue(m.exec)
    ensures Run(script, m, h, limit) ==
            match Pay(BudgetOf(m), limit)
            case Bad(e, u) => Bad(e, u)
            case Good(c) =>
              match Perform(i, c.d, h, limit)
              case Bad(e, u) => Bad(e, u)
              case Good(d) => Run(script, Machine(d, m.exec, m.pc + |Encode(i)|, c.ops), h, limit)
  {
    hide Step, Perform;
    StepEncoded(script, m, i, h, limit);
  }

  lemma RunIf(script: seq<u8>, m: Machine, h: Host, limit: u64)
    requires m.pc < |script| && (script[m.pc] == OP_IF || script[m.pc] == OP_NOTIF) && AllTrue(m.exec)
    ensures Run(script, m, h, limit) ==
            match Pay(BudgetOf(m), limit)
            case Bad(e, u) => Bad(e, u)
            case Good(c) =>
              match Pop(c.d)
              case Bad(e, u) => Bad(e, u)
              case Good((e, d)) =>
                var taken := IsTrue(e) != (script[m.pc] == OP_NOTIF);
                Run(script, Machine(d, m.exec + [taken], m.pc + 1, c.ops), h, limit)
  {
    hide Apply;
  }

  lemma {:induction false} RunIsExecCond(p: Prog, script: seq<u8>, m: Machine, h: Host, limit: u64)
    requires p.Cond? && Encodes(p) && At(script, m.pc, Flat(p)) && AllTrue(m.exec)
    ensures Run(script, m, h, limit) ==
            Resume(script, Exec(p, BudgetOf(m), h, limit), m.exec, m.pc + |Flat(p)|, h, limit)
    decreases p, 0
  {
    hide Step, Tick, Run, Pay, Pop, IsTrue, At, AllTrue, Flat, FlatBranches;
    var bs, after := p.branches, p.after;
    var k := |FlatBranches(bs)|;
    CondLayout(p, script, m.pc);
    RunIf(script, m, h, limit);
    match Pay(BudgetOf(m), limit) {
      case Bad(_, _) =>
      case Good(c) =>
        match Pop(c.d) {
          case Bad(_, _) =>
          case Good((e, d)) =>
            var taken := IsTrue(e) != p.negated;
            RunIsExecBranches(bs, taken, script, Machine(d, m.exec + [taken], m.pc + 1, c.ops), m.exec, h, limit);
            match ExecBranches(bs, taken, Budget(d, c.ops), h, limit) {
              case Bad(_, _) =>
              case Good(c2) =>
                RunIsExecEnd(after, script, c2, m.exec, LastFlag(bs, taken), m.pc + 1 + k, h, limit);
            }
        }
    }
  }

  // From OP_ENDIF on: it is paid for, takes its flag off, and the rest is executed.
  lemma {:induction false} RunIsExecEnd(after: Prog, script: seq<u8>, c: Budget, outer: seq<bool>, flag: bool, pc: nat,
                                        h: Host, limit: u64)
    requires Encodes(after) && pc < |script| && script[pc] == OP_ENDIF && At(script, pc + 1, Flat(after)) &&
             AllTrue(outer)
    ensures Run(script, Machine(c.d, outer + [flag], pc, c.ops), h, limit) ==
            match Pay(c, limit)
            case Bad(e, u) => Bad(e, u)
            case Good(c1) => Resume(script, Exec(after, c1, h, limit), outer, pc + 1 + |Flat(after)|, h, limit)
    decreases after, 2
  {
    hide Step, Tick, Run, Pay, At, AllTrue, Exec, Flat, Encodes;
    StepEndIf(script, Machine(c.d, outer + [flag], pc, c.ops), outer, flag, h, limit);
    match Pay(c, limit)
    case Bad(_, _) =>
    case Good(c1) => RunIsExec(after, script, Machine(c1.d, outer, pc + 1, c1.ops), h, limit);
  }

  lemma {:induction false} RunIsExecBranches(bs: Branches, taken: bool, script: seq<u8>, m: Machine, outer: seq<bool>,
                                             h: Host, limit: u64)
    requires EncodesBranches(bs) && At(script, m.pc, FlatBranches(bs))
    requires m.exec == outer + [taken] && AllTrue(outer)
    ensures Run(script, m, h, limit) ==
            Resume(script, ExecBranches(bs, taken, BudgetOf(m), h, limit), outer + [LastFlag(bs, taken)],
                   m.pc + |FlatBranches(bs)|, h, limit)
    decreases bs
  {
    hide Step, Tick, Run, Pay;
    match bs
    case Single(p) => RunIsExecBranch(p, taken, script, m, outer, h, limit);
    case Alternate(p, others) =>
      BranchLayout(bs, script, m.pc);
      RunIsExecBranch(p, taken, script, m, outer, h, limit);
      match ExecBranch(p, taken, BudgetOf(m), h, limit) {
        case Bad(_, _) =>
        case Good(c) =>
          StepElse(script, Machine(c.d, m.exec, m.pc + |Flat(p)|, c.ops), outer, taken, h, limit);
          match Pay(c, limit) {
            case Bad(_, _) =>
            case Good(c1) =>
              RunIsExecBranches(others, !taken, script, Machine(c1.d, outer + [!taken], m.pc + |Flat(p)| + 1, c1.ops),
                                outer, h, limit);
          }
      }
  }

  lemma {:induction false} RunIsExecBranch(p: Prog, taken: bool, script: seq<u8>, m: Machine, outer: seq<bool>, h: Host,
                                           limit: u64)
    requires Encodes(p) && At(script, m.pc, Flat(p))
    requires m.exec == outer + [taken] && AllTrue(outer)
    ensures Run(script, m, h, limit) ==
            Resume(script, ExecBranch(p, taken, BudgetOf(m), h, limit), m.exec, m.pc + |Flat(p)|, h, limit)
    decreases p, 2
  {
    AllTrueOf(outer, taken);
    if taken {
      RunIsExec(p, script, m, h, limit);
    } else {
      SkipProg(p, script, m, h, limit);
    }
  }

  // The whole script: from a machine with no open conditional, running the encoding ends as direct
  // execution does, at the end of the script and again with no open conditional.
  lemma StructuredExecution(p: Prog, m: Machine, h: Host, limit: u64)
    requires Encodes(p) && m.pc == 0 && m.exec == []
    ensures Run(Flat(p), m, h, limit) ==
            match Exec(p, BudgetOf(m), h, limit)
            case Good(c) => Good(Machine(c.d, [], |Flat(p)|, c.ops))
            case Bad(e, used) => Bad(e, used)
  {
    hide Step, Exec, Flat;
    assert Flat(p)[0..0 + |Flat(p)|] == Flat(p);
    RunIsExec(p, Flat(p), m, h, limit);
  }
}
