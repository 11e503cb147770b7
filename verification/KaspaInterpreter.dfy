/** The interpreter of the Kaspa script VM as a function: one step over flat bytecode, with the
    condition stack, and the run of a script. */
module KaspaInterpreter {
  import opened Ints
  import opened Wrappers
  import opened Gas
  import opened LittleEndian
  import opened ScriptNumber
  import opened KaspaOps

  const MAX_OPS_PER_SCRIPT := 201
  const MAX_SCRIPT_SIZE := 10_000
  const KASPA_MAGIC: seq<u8> := [0x4B, 0x41, 0x53, 0x50]

  const OP_IF: u8 := 0x63
  const OP_NOTIF: u8 := 0x64
  const OP_ELSE: u8 := 0x67
  const OP_ENDIF: u8 := 0x68

  datatype Machine = Machine(d: Data, exec: seq<bool>, pc: nat, ops: nat)

  predicate AllTrue(exec: seq<bool>) {
    forall i :: 0 <= i < |exec| ==> exec[i]
  }

  predicate IsPush(b: u8) {
    0x01 <= b <= 0x4e
  }

  predicate IsControl(b: u8) {
    b == OP_IF || b == OP_NOTIF || b == OP_ELSE || b == OP_ENDIF
  }

  // What every opcode pays, executed or skipped: base gas first, then the opcode budget.
  function Tick(m: Machine, limit: u64): Res<Machine> {
    var d1 :- Spend(m.d, BASE, limit);
    if m.ops + 1 > MAX_OPS_PER_SCRIPT then Bad(Exec("Script opcode count exceeded"), d1.used)
    else Good(m.(d := d1, ops := m.ops + 1))
  }

  // How many bytes after a push opcode hold the length; a direct push is its own length.
  function LengthBytes(b: u8): nat
    requires IsPush(b)
  {
    if b <= 0x4b then 0 else if b == 0x4c then 1 else if b == 0x4d then 2 else 4
  }

  // The data of the push opcode b whose operands start at pc: its length and where it starts.
  function Operand(script: seq<u8>, pc: nat, b: u8): (r: Option<(nat, nat)>)
    requires IsPush(b)
    ensures r.Some? ==> r.value.1 >= pc
  {
    var k := LengthBytes(b);
    if pc + k > |script| then None
    else if k == 0 then Some((b, pc))
    else Some((LeValue(script[pc..pc + k]), pc + k))
  }

  function Step(script: seq<u8>, m: Machine, h: Host, limit: u64): (r: Res<Machine>)
    requires m.pc < |script|
    ensures r.Good? ==> r.value.pc > m.pc && r.value.ops == m.ops + 1 <= MAX_OPS_PER_SCRIPT
  {
    var b := script[m.pc];
    var t :- Tick(m.(pc := m.pc + 1), limit);
    if IsPush(b) then StepPush(script, t, b)
    else if IsControl(b) then StepControl(t, b)
    else if AllTrue(t.exec) then
      var d :- Apply(Decode(b), t.d, h, limit);
      Good(t.(d := d))
    else Good(t)
  }

  function StepPush(script: seq<u8>, t: Machine, b: u8): (r: Res<Machine>)
    requires IsPush(b)
    ensures r.Good? ==> r.value.pc >= t.pc && r.value.ops == t.ops && r.value.exec == t.exec
  {
    match Operand(script, t.pc, b)
    case None => Fail(t.d, Exec("Unexpected end of script"))
    case Some((len, start)) =>
      if !AllTrue(t.exec) then Good(t.(pc := start + len))
      else if start + len > |script| then Fail(t.d, Exec("Unexpected end of script"))
      else
        var d :- Push(t.d, script[start..start + len]);
        Good(t.(d := d, pc := start + len))
  }

  function StepControl(t: Machine, b: u8): (r: Res<Machine>)
    requires IsControl(b)
    ensures r.Good? ==> r.value.pc == t.pc && r.value.ops == t.ops
  {
    var n := |t.exec|;
    if b == OP_IF || b == OP_NOTIF then
      if AllTrue(t.exec) then
        var (e, d) :- Pop(t.d);
        Good(t.(d := d, exec := t.exec + [IsTrue(e) == (b == OP_IF)]))
      else Good(t.(exec := t.exec + [false]))
    else if n == 0 then
      Fail(t.d, Exec(if b == OP_ELSE then "OP_ELSE without OP_IF" else "OP_ENDIF without OP_IF"))
    else if b == OP_ENDIF then Good(t.(exec := t.exec[..n - 1]))
    else if AllTrue(t.exec[..n - 1]) then Good(t.(exec := t.exec[..n - 1] + [!t.exec[n - 1]]))
    else Good(t)
  }

  function Run(script: seq<u8>, m: Machine, h: Host, limit: u64): Res<Machine>
    decreases |script| - m.pc
  {
    if m.pc >= |script| then Good(m)
    else
      var m1 :- Step(script, m, h, limit);
      Run(script, m1, h, limit)
  }

  // ---------- A whole execution ----------

  datatype VMResult = VMResult(success: bool, gasUsed: u64, returnData: Elem, error: Option<Error>, logs: seq<Log>)

  function Failed(used: u64, e: Error): VMResult {
    VMResult(false, used, [], Some(e), [])
  }

  const FRESH := Machine(Data([], [], map[], [], 0), [], 0, 0)

  // The unlocking script, if any, then the locking script, on the same machine.
  function RunBoth(input: seq<u8>, script: seq<u8>, m: Machine, h: Host, limit: u64): Res<Machine> {
    var m1 :- if input == [] then Good(m) else Run(input, m.(pc := 0), h, limit);
    Run(script, m1.(pc := 0), h, limit)
  }

  function Verdict(m: Machine): VMResult {
    var s := m.d.stack;
    var top := if s == [] then [] else s[|s| - 1];
    if s != [] && IsTrue(top) then VMResult(true, m.d.used, top, None, m.d.logs)
    else VMResult(false, m.d.used, [], Some(Exec("Script failed: false on stack")), m.d.logs)
  }

  function Execute(bytecode: seq<u8>, input: seq<u8>, m: Machine, h: Host, limit: u64): VMResult {
    if |bytecode| < 4 || bytecode[..4] != KASPA_MAGIC then Failed(0, Exec("Invalid Kaspa bytecode magic"))
    else if |bytecode| > MAX_SCRIPT_SIZE + 4 then Failed(0, Exec("Script size exceeds maximum"))
    else
      match RunBoth(input, bytecode[4..], m, h, limit)
      case Good(m1) => Verdict(m1)
      case Bad(e, used) => Failed(used, e)
  }
}
