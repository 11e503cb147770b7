/** Account state and sets of changes to it, from `state.rs`. */
module Accounts {
  import opened Ints
  import opened Wrappers

  type Address = nat
  type Code = seq<u8>

  const ZERO_HASH: Hash := 0

  datatype Account = Account(
    address: Address, balance: u128, nonce: u64, codeHash: Hash, storageRoot: Hash, staked: u128, device: Option<Hash>)

  function NewAccount(x: Address): Account {
    Account(x, 0, 0, ZERO_HASH, ZERO_HASH, 0, None)
  }

  // The storage root does not count.
  predicate IsEmpty(a: Account) {
    a.balance == 0 && a.nonce == 0 && a.codeHash == ZERO_HASH && a.staked == 0 && a.device == None
  }

  datatype World = World(
    accounts: map<Address, Account>, code: map<Address, Code>, storage: map<Address, map<Hash, Hash>>)

  datatype Changes = Changes(
    modified: map<Address, Account>, deleted: seq<Address>, created: seq<(Address, Code)>,
    writes: map<Address, map<Hash, Hash>>)

  const NO_CHANGES: Changes := Changes(map[], [], [], map[])

  // Accounts are listed under their own addresses.
  predicate Keyed(accounts: map<Address, Account>) {
    forall x :: x in accounts ==> accounts[x].address == x
  }

  // No stored account is empty.
  predicate Pruned(accounts: map<Address, Account>) {
    Keyed(accounts) && forall x :: x in accounts ==> !IsEmpty(accounts[x])
  }

  // ---------- What there is, and what changes, at one address ----------

  datatype Contract = Contract(account: Option<Account>, code: Option<Code>)

  datatype Slot = Slot(contract: Contract, storage: Option<map<Hash, Hash>>)

  const NO_CONTRACT: Contract := Contract(None, None)

  datatype Touch = Touch(modified: Option<Account>, deleted: bool, codes: seq<Code>, writes: map<Hash, Hash>)

  function Lookup<V>(m: map<Address, V>, x: Address): Option<V> {
    if x in m then Some(m[x]) else None
  }

  function SlotAt(w: World, x: Address): Slot {
    Slot(Contract(Lookup(w.accounts, x), Lookup(w.code, x)), Lookup(w.storage, x))
  }

  function CodesFor(created: seq<(Address, Code)>, x: Address): seq<Code> {
    if created == [] then []
    else
      var before := CodesFor(created[..|created| - 1], x);
      var (y, code) := created[|created| - 1];
      if y == x then before + [code] else before
  }

  function WritesAt(writes: map<Address, map<Hash, Hash>>, x: Address): map<Hash, Hash> {
    if x in writes then writes[x] else map[]
  }

  function TouchAt(c: Changes, x: Address): Touch {
    Touch(Lookup(c.modified, x), x in c.deleted, CodesFor(c.created, x), WritesAt(c.writes, x))
  }

  function Kept(a: Account): Option<Account> {
    if IsEmpty(a) then None else Some(a)
  }

  function OrNew(a: Option<Account>, x: Address): Account {
    if a.Some? then a.value else NewAccount(x)
  }

  function Modified(c: Contract, a: Option<Account>): Contract {
    if a.Some? then c.(account := Kept(a.value)) else c
  }

  function WithCode(sha3: Code -> Hash, x: Address, c: Contract, code: Code): Contract {
    Contract(Kept(OrNew(c.account, x).(codeHash := sha3(code))), Some(code))
  }

  function WithCodes(sha3: Code -> Hash, x: Address, c: Contract, codes: seq<Code>): Contract {
    if codes == [] then c
    else WithCode(sha3, x, WithCodes(sha3, x, c, codes[..|codes| - 1]), codes[|codes| - 1])
  }

  function Written(st: Option<map<Hash, Hash>>, writes: map<Hash, Hash>): Option<map<Hash, Hash>> {
    if writes == map[] then st else Some((if st.Some? then st.value else map[]) + writes)
  }

  // Modifications come first, then deletions, contract creations and storage writes.
  function ContractAfter(sha3: Code -> Hash, x: Address, c: Contract, t: Touch): Contract {
    WithCodes(sha3, x, if t.deleted then NO_CONTRACT else Modified(c, t.modified), t.codes)
  }

  function StorageAfter(st: Option<map<Hash, Hash>>, t: Touch): Option<map<Hash, Hash>> {
    Written(if t.deleted then None else st, t.writes)
  }

  function ApplyAt(sha3: Code -> Hash, x: Address, s: Slot, t: Touch): Slot {
    Slot(ContractAfter(sha3, x, s.contract, t), StorageAfter(s.storage, t))
  }

  // ---------- Merging change sets ----------

  function MergedWrites(a: map<Address, map<Hash, Hash>>, b: map<Address, map<Hash, Hash>>)
    : map<Address, map<Hash, Hash>>
  {
    map x | x in a.Keys + b.Keys :: WritesAt(a, x) + WritesAt(b, x)
  }

  function Merged(a: Changes, b: Changes): Changes {
    Changes(a.modified + b.modified, a.deleted + b.deleted, a.created + b.created, MergedWrites(a.writes, b.writes))
  }

  function MergedTouch(a: Touch, b: Touch): Touch {
    Touch(if b.modified.Some? then b.modified else a.modified,
          a.deleted || b.deleted, a.codes + b.codes, a.writes + b.writes)
  }

  lemma {:induction false} CodesConcat(a: seq<(Address, Code)>, b: seq<(Address, Code)>, x: Address)
    ensures CodesFor(a + b, x) == CodesFor(a, x) + CodesFor(b, x)
    decreases |b|
  {
    if b == [] {
      assert a + b == a;
    } else {
      assert (a + b)[..|a + b| - 1] == a + b[..|b| - 1];
      CodesConcat(a, b[..|b| - 1], x);
    }
  }

  lemma MergedAt(a: Changes, b: Changes, x: Address)
    ensures TouchAt(Merged(a, b), x) == MergedTouch(TouchAt(a, x), TouchAt(b, x))
  {
    CodesConcat(a.created, b.created, x);
    assert WritesAt(a.writes, x) + map[] == WritesAt(a.writes, x);
  }

  lemma {:induction false} WithCodesConcat(sha3: Code -> Hash, x: Address, c: Contract, a: seq<Code>, b: seq<Code>)
    ensures WithCodes(sha3, x, c, a + b) == WithCodes(sha3, x, WithCodes(sha3, x, c, a), b)
    decreases |b|
  {
    if b == [] {
      assert a + b == a;
    } else {
      assert (a + b)[..|a + b| - 1] == a + b[..|b| - 1];
      WithCodesConcat(sha3, x, c, a, b[..|b| - 1]);
    }
  }

  // ---------- Merging against applying in sequence ----------

  // The second set modifies what the first deleted or created, or deletes what the first created or
  // wrote to.
  predicate Clash(a: Touch, b: Touch) {
    || (b.modified.Some? && (a.deleted || a.codes != []))
    || (b.deleted && (a.codes != [] || a.writes != map[]))
  }

  // Without a clash, applying the merged set is applying one set after the other.
  lemma MergeAtUnlessClash(sha3: Code -> Hash, x: Address, s: Slot, a: Touch, b: Touch)
    requires !Clash(a, b)
    ensures ApplyAt(sha3, x, ApplyAt(sha3, x, s, a), b) == ApplyAt(sha3, x, s, MergedTouch(a, b))
  {
    hide Written;
    StorageMergesIff(s.storage, a, b);
    assert a.writes == map[] ==> a.writes.Keys == {};
    var m := MergedTouch(a, b);
    var base := if m.deleted then NO_CONTRACT else Modified(s.contract, m.modified);
    WithCodesConcat(sha3, x, base, a.codes, b.codes);
  }

  // Exactly then storage comes out the same: what the second set deletes, the first wrote only where the
  // second writes again.
  lemma StorageMergesIff(st: Option<map<Hash, Hash>>, a: Touch, b: Touch)
    ensures StorageAfter(StorageAfter(st, a), b) == StorageAfter(st, MergedTouch(a, b))
            <==> (b.deleted ==> a.writes.Keys <= b.writes.Keys)
  {
    var aw, bw := a.writes, b.writes;
    if b.deleted {
      if aw.Keys <= bw.Keys {
        assert aw + bw == bw;
      } else {
        var k :| k in aw && k !in bw;
        assert k in aw + bw;
      }
    } else {
      var base := if a.deleted || st.None? then map[] else st.value;
      assert (base + aw) + bw == base + (aw + bw);
      assert aw + map[] == aw;
      assert map[] + bw == bw;
      assert aw + bw == map[] ==> aw.Keys + bw.Keys == {};
    }
  }

  // No code hashes to zero.
  ghost predicate NeverZero(sha3: Code -> Hash) {
    forall code :: sha3(code) != ZERO_HASH
  }

  lemma {:induction false} LastCodeCounts(sha3: Code -> Hash, x: Address, c: Contract, codes: seq<Code>)
    requires NeverZero(sha3) && codes != []
    ensures var last := codes[|codes| - 1];
            WithCodes(sha3, x, c, codes) == Contract(Some(OrNew(c.account, x).(codeHash := sha3(last))), Some(last))
    decreases |codes|
  {
    var before := codes[..|codes| - 1];
    if before != [] {
      LastCodeCounts(sha3, x, c, before);
    }
  }

  // Whether modifying an account and then undoing the first set's deletion or creation, in the wrong
  // order, happens to make no difference.
  predicate ContractHarmless(sha3: Code -> Hash, x: Address, a: Touch, b: Touch) {
    if b.deleted then a.codes != [] ==> b.codes != []
    else if b.modified.None? || (!a.deleted && a.codes == []) then true
    else
      var kept := Kept(b.modified.value);
      if b.codes != [] then a.deleted ==> OrNew(kept, x).(codeHash := ZERO_HASH) == NewAccount(x)
      else if a.codes == [] then kept == None
      else
        kept == Some((if a.deleted then NewAccount(x) else OrNew(kept, x)).(codeHash := sha3(a.codes[|a.codes| - 1])))
  }

  lemma ContractMergesIff(sha3: Code -> Hash, x: Address, c: Contract, a: Touch, b: Touch)
    requires NeverZero(sha3)
    ensures ContractAfter(sha3, x, ContractAfter(sha3, x, c, a), b) == ContractAfter(sha3, x, c, MergedTouch(a, b))
            <==> ContractHarmless(sha3, x, a, b)
  {
    hide NeverZero;
    var m := MergedTouch(a, b);
    var base := if m.deleted then NO_CONTRACT else Modified(c, m.modified);
    WithCodesConcat(sha3, x, base, a.codes, b.codes);
    var first := ContractAfter(sha3, x, c, a);
    var second := if b.deleted then NO_CONTRACT else Modified(first, b.modified);
    var start := if a.deleted then NO_CONTRACT else Modified(c, a.modified);
    if a.codes != [] {
      LastCodeCounts(sha3, x, start, a.codes);
      LastCodeCounts(sha3, x, base, a.codes);
    }
    if b.codes != [] {
      LastCodeCounts(sha3, x, second, b.codes);
      LastCodeCounts(sha3, x, WithCodes(sha3, x, base, a.codes), b.codes);
    }
  }

  predicate Harmless(sha3: Code -> Hash, x: Address, a: Touch, b: Touch) {
    ContractHarmless(sha3, x, a, b) && (b.deleted ==> a.writes.Keys <= b.writes.Keys)
  }

  // w1 is what applying the changes to w gives.
  ghost predicate Applies(sha3: Code -> Hash, w: World, c: Changes, w1: World) {
    forall x :: SlotAt(w1, x) == ApplyAt(sha3, x, SlotAt(w, x), TouchAt(c, x))
  }

  lemma SameSlotsSameWorld(v: World, w: World)
    requires forall x :: SlotAt(v, x) == SlotAt(w, x)
    ensures v == w
  {
    hide SlotAt;
    forall x ensures Lookup(v.accounts, x) == Lookup(w.accounts, x) && Lookup(v.code, x) == Lookup(w.code, x)
                     && Lookup(v.storage, x) == Lookup(w.storage, x)
    {
      SlotParts(v, x);
      SlotParts(w, x);
    }
    SameLookupsSameMap(v.accounts, w.accounts);
    SameLookupsSameMap(v.code, w.code);
    SameLookupsSameMap(v.storage, w.storage);
  }

  lemma SlotParts(w: World, x: Address)
    ensures SlotAt(w, x) == Slot(Contract(Lookup(w.accounts, x), Lookup(w.code, x)), Lookup(w.storage, x))
  {
  }

  lemma SameLookupsSameMap<V>(m: map<Address, V>, n: map<Address, V>)
    requires forall x :: Lookup(m, x) == Lookup(n, x)
    ensures m == n
  {
    assert forall x :: x in m ==> Lookup(n, x).Some?;
    assert forall x :: x in n ==> Lookup(m, x).Some?;
  }

  // Applying b after a gives what applying their merge gives exactly if they are harmless at every
  // address; which worlds they are applied to does not matter.
  lemma MergeIsSequenceIff(sha3: Code -> Hash, w: World, a: Changes, b: Changes, w1: World, w2: World, merged: World)
    requires NeverZero(sha3)
    requires Applies(sha3, w, a, w1) && Applies(sha3, w1, b, w2) && Applies(sha3, w, Merged(a, b), merged)
    ensures merged == w2 <==> forall x :: Harmless(sha3, x, TouchAt(a, x), TouchAt(b, x))
  {
    hide NeverZero, ContractHarmless, ContractAfter, StorageAfter, SlotAt, TouchAt, Merged, MergedTouch;
    forall x ensures SlotAt(merged, x) == SlotAt(w2, x) <==> Harmless(sha3, x, TouchAt(a, x), TouchAt(b, x)) {
      var s, ta, tb := SlotAt(w, x), TouchAt(a, x), TouchAt(b, x);
      MergedAt(a, b, x);
      ContractMergesIff(sha3, x, s.contract, ta, tb);
      StorageMergesIff(s.storage, ta, tb);
      assert SlotAt(w2, x) == ApplyAt(sha3, x, ApplyAt(sha3, x, s, ta), tb);
    }
    if forall x :: Harmless(sha3, x, TouchAt(a, x), TouchAt(b, x)) {
      SameSlotsSameWorld(merged, w2);
    }
  }

  // In particular it does when the sets clash nowhere, whatever the hash function.
  lemma MergeIsSequenceUnlessClash(sha3: Code -> Hash, w: World, a: Changes, b: Changes, w1: World, w2: World,
                                   merged: World)
    requires Applies(sha3, w, a, w1) && Applies(sha3, w1, b, w2) && Applies(sha3, w, Merged(a, b), merged)
    requires forall x :: !Clash(TouchAt(a, x), TouchAt(b, x))
    ensures merged == w2
  {
    hide ApplyAt, SlotAt, TouchAt, Merged, MergedTouch, Clash;
    forall x ensures SlotAt(merged, x) == SlotAt(w2, x) {
      MergedAt(a, b, x);
      MergeAtUnlessClash(sha3, x, SlotAt(w, x), TouchAt(a, x), TouchAt(b, x));
    }
    SameSlotsSameWorld(merged, w2);
  }

  // A merge that goes wrong: the first set deletes an account, the second writes it anew, and the merged
  // set deletes it.
  lemma MergeCanLoseAnAccount(sha3: Code -> Hash, w: World, w1: World, w2: World, merged: World)
    requires var a, b := Changes(map[], [7], [], map[]), Changes(map[7 := NewAccount(7).(balance := 1)], [], [], map[]);
             Applies(sha3, w, a, w1) && Applies(sha3, w1, b, w2) && Applies(sha3, w, Merged(a, b), merged)
    ensures SlotAt(w2, 7).contract.account == Some(NewAccount(7).(balance := 1)) &&
            SlotAt(merged, 7).contract.account == None
  {
    var a, b := Changes(map[], [7], [], map[]), Changes(map[7 := NewAccount(7).(balance := 1)], [], [], map[]);
    MergedAt(a, b, 7);
    assert SlotAt(merged, 7) == ApplyAt(sha3, 7, SlotAt(w, 7), TouchAt(Merged(a, b), 7));
    assert SlotAt(w2, 7) == ApplyAt(sha3, 7, SlotAt(w1, 7), TouchAt(b, 7));
  }
}
