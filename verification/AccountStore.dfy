/** The account state and the change sets of `state.rs` as objects changed in place. */
module AccountStore {
  import opened Ints
  import opened Wrappers
  import opened Results
  import opened Accounts

  class ChangeSet {
    var modified: map<Address, Account>
    var deleted: seq<Address>
    var created: seq<(Address, Code)>
    var writes: map<Address, map<Hash, Hash>>

    ghost function View(): Changes
      reads this
    {
      Changes(modified, deleted, created, writes)
    }

    constructor ()
      ensures View() == NO_CHANGES
    {
      modified, deleted, created, writes := map[], [], [], map[];
    }

    method ModifyAccount(a: Account)
      modifies `modified
      ensures View() == old(View()).(modified := old(modified)[a.address := a])
      ensures old(Keyed(modified)) ==> Keyed(modified)
    {
      modified := modified[a.address := a];
    }

    method DeleteAccount(x: Address)
      modifies `deleted, `modified
      ensures View() == old(View()).(deleted := old(deleted) + [x], modified := old(modified) - {x})
      ensures old(Keyed(modified)) ==> Keyed(modified)
    {
      deleted := deleted + [x];
      modified := modified - {x};
    }

    method CreateContract(x: Address, code: Code)
      modifies `created
      ensures View() == old(View()).(created := old(created) + [(x, code)])
    {
      created := created + [(x, code)];
    }

    method SetStorage(x: Address, key: Hash, value: Hash)
      modifies `writes
      ensures View() == old(View()).(writes := old(writes)[x := WritesAt(old(writes), x)[key := value]])
    {
      writes := writes[x := WritesAt(writes, x)[key := value]];
    }

    // The entries of the other set are gone through in any order.
    method Merge(other: Changes)
      modifies this
      ensures View() == Merged(old(View()), other)
      ensures old(Keyed(modified)) && Keyed(other.modified) ==> Keyed(modified)
    {
      MergeModified(other.modified);
      deleted := deleted + other.deleted;
      created := created + other.created;
      MergeWrites(other.writes);
    }

    method MergeModified(other: map<Address, Account>)
      modifies `modified
      ensures modified == old(modified) + other
    {
      var rest := other.Keys;
      ghost var done := map[];
      while rest != {}
        invariant rest <= other.Keys && done.Keys == other.Keys - rest && forall x :: x in done ==> done[x] == other[x]
        invariant modified == old(modified) + done
        decreases |rest|
      {
        var x :| x in rest;
        rest := rest - {x};
        assert old(modified) + done[x := other[x]] == (old(modified) + done)[x := other[x]];
        done := done[x := other[x]];
        modified := modified[x := other[x]];
      }
      assert done == other;
    }

    method MergeWrites(other: map<Address, map<Hash, Hash>>)
      modifies `writes
      ensures writes == MergedWrites(old(writes), other)
    {
      hide MergedWrites;
      var rest := other.Keys;
      ghost var done := map[];
      MergeNothing(writes);
      while rest != {}
        invariant rest <= other.Keys && done.Keys == other.Keys - rest && forall x :: x in done ==> done[x] == other[x]
        invariant writes == MergedWrites(old(writes), done)
        decreases |rest|
      {
        var x :| x in rest;
        rest := rest - {x};
        MergeOneMore(old(writes), done, x, other[x]);
        done := done[x := other[x]];
        writes := writes[x := WritesAt(writes, x) + other[x]];
      }
      assert done == other;
    }
  }

  lemma MergeNothing(a: map<Address, map<Hash, Hash>>)
    ensures MergedWrites(a, map[]) == a
  {
    assert forall x :: x in a ==> a[x] + map[] == a[x];
  }

  lemma MergedWritesAt(a: map<Address, map<Hash, Hash>>, b: map<Address, map<Hash, Hash>>, y: Address)
    ensures y in MergedWrites(a, b) <==> y in a || y in b
    ensures y in MergedWrites(a, b) ==> MergedWrites(a, b)[y] == WritesAt(a, y) + WritesAt(b, y)
  {
  }

  lemma MergeOneMore(a: map<Address, map<Hash, Hash>>, done: map<Address, map<Hash, Hash>>, x: Address,
                     more: map<Hash, Hash>)
    requires x !in done
    ensures var before := MergedWrites(a, done);
            MergedWrites(a, done[x := more]) == before[x := WritesAt(before, x) + more]
  {
    hide MergedWrites;
    var before, after := MergedWrites(a, done), MergedWrites(a, done[x := more]);
    MergedWritesAt(a, done, x);
    assert WritesAt(a, x) + map[] == WritesAt(a, x);
    forall y ensures y in after <==> y in before[x := WritesAt(before, x) + more] {
      MergedWritesAt(a, done, y);
      MergedWritesAt(a, done[x := more], y);
    }
    forall y | y in after ensures after[y] == before[x := WritesAt(before, x) + more][y] {
      MergedWritesAt(a, done, y);
      MergedWritesAt(a, done[x := more], y);
    }
  }

  // ---------- Transfers ----------

  datatype TransferError = InsufficientBalance | BalanceOverflow

  function Put(accounts: map<Address, Account>, a: Account): map<Address, Account> {
    if IsEmpty(a) then accounts - {a.address} else accounts[a.address := a]
  }

  function AccountAt(accounts: map<Address, Account>, x: Address): Account {
    OrNew(Lookup(accounts, x), x)
  }

  // A transfer to oneself succeeds without looking at the balance.
  function Transferred(accounts: map<Address, Account>, from: Address, to: Address, amount: u128)
    : Result<map<Address, Account>, TransferError>
  {
    var source, target := AccountAt(accounts, from), AccountAt(accounts, to);
    if from == to then Ok(accounts)
    else if source.balance < amount then Err(InsufficientBalance)
    else if target.balance + amount >= U128 then Err(BalanceOverflow)
    else Ok(Put(Put(accounts, source.(balance := source.balance - amount)),
                target.(balance := target.balance + amount)))
  }

  // All balances together.
  ghost function Total(accounts: map<Address, Account>): nat {
    if accounts == map[] then 0
    else
      var x :| x in accounts;
      accounts[x].balance + Total(accounts - {x})
  }

  lemma {:induction false} TotalWithout(accounts: map<Address, Account>, x: Address)
    requires x in accounts
    ensures Total(accounts) == accounts[x].balance + Total(accounts - {x})
    decreases |accounts|
  {
    var y :| y in accounts && Total(accounts) == accounts[y].balance + Total(accounts - {y});
    if y != x {
      assert (accounts - {y}).Keys == accounts.Keys - {y} && (accounts - {x}).Keys == accounts.Keys - {x};
      TotalWithout(accounts - {y}, x);
      TotalWithout(accounts - {x}, y);
      assert (accounts - {y}) - {x} == (accounts - {x}) - {y};
    }
  }

  lemma PutChangesTotal(accounts: map<Address, Account>, a: Account)
    requires Keyed(accounts)
    ensures Total(Put(accounts, a)) == Total(accounts) - AccountAt(accounts, a.address).balance + a.balance
    ensures Keyed(Put(accounts, a)) && AccountAt(Put(accounts, a), a.address).balance == a.balance
    ensures forall x :: x != a.address ==> AccountAt(Put(accounts, a), x) == AccountAt(accounts, x)
    ensures Pruned(accounts) ==> Pruned(Put(accounts, a))
  {
    var x, without := a.address, accounts - {a.address};
    if x in accounts {
      TotalWithout(accounts, x);
    } else {
      assert without == accounts;
    }
    if !IsEmpty(a) {
      TotalWithout(accounts[x := a], x);
      assert accounts[x := a] - {x} == without;
    }
  }

  // A successful transfer moves the amount and nothing else, and keeps the sum of all balances.
  lemma TransferConserves(accounts: map<Address, Account>, from: Address, to: Address, amount: u128)
    requires Pruned(accounts) && Transferred(accounts, from, to, amount).Ok?
    ensures var after := Transferred(accounts, from, to, amount).value;
            && Total(after) == Total(accounts) && Pruned(after)
            && (from != to ==> AccountAt(after, from).balance == AccountAt(accounts, from).balance - amount)
            && (from != to ==> AccountAt(after, to).balance == AccountAt(accounts, to).balance + amount)
            && forall x :: x != from && x != to ==> AccountAt(after, x) == AccountAt(accounts, x)
  {
    hide Put, Total;
    if from != to {
      var source, target := AccountAt(accounts, from), AccountAt(accounts, to);
      PutChangesTotal(accounts, source.(balance := source.balance - amount));
      var mid := Put(accounts, source.(balance := source.balance - amount));
      PutChangesTotal(mid, target.(balance := target.balance + amount));
    }
  }

  // ---------- The state object ----------

  // ---------- Genesis allocations ----------

  datatype Allocation = Allocation(address: Address, balance: u128, code: Option<Code>)

  function Coded(sha3: Code -> Hash, w: World, x: Address, code: Code): World {
    w.(accounts := Put(w.accounts, AccountAt(w.accounts, x).(codeHash := sha3(code))), code := w.code[x := code])
  }

  function Allocated(sha3: Code -> Hash, w: World, a: Allocation): World {
    var w1 := w.(accounts := Put(w.accounts, NewAccount(a.address).(balance := a.balance)));
    if a.code.Some? then Coded(sha3, w1, a.address, a.code.value) else w1
  }

  function AllocatedAll(sha3: Code -> Hash, w: World, allocations: seq<Allocation>): World {
    var n := |allocations|;
    if n == 0 then w else Allocated(sha3, AllocatedAll(sha3, w, allocations[..n - 1]), allocations[n - 1])
  }

  function Supply(allocations: seq<Allocation>): nat {
    var n := |allocations|;
    if n == 0 then 0 else Supply(allocations[..n - 1]) + allocations[n - 1].balance
  }

  predicate DifferentAddresses(allocations: seq<Allocation>) {
    forall i, j :: 0 <= i < j < |allocations| ==> allocations[i].address != allocations[j].address
  }

  lemma AllocationSetsBalance(sha3: Code -> Hash, w: World, a: Allocation)
    requires Keyed(w.accounts)
    ensures var after := Allocated(sha3, w, a).accounts;
            && Keyed(after) && AccountAt(after, a.address).balance == a.balance
            && Total(after) == Total(w.accounts) - AccountAt(w.accounts, a.address).balance + a.balance
            && forall x :: x != a.address ==> AccountAt(after, x) == AccountAt(w.accounts, x)
  {
    hide Put, Total;
    PutChangesTotal(w.accounts, NewAccount(a.address).(balance := a.balance));
    if a.code.Some? {
      var mid := Put(w.accounts, NewAccount(a.address).(balance := a.balance));
      PutChangesTotal(mid, AccountAt(mid, a.address).(codeHash := sha3(a.code.value)));
    }
  }

  // From an empty state every allocated address has the balance of its last allocation, any other address has
  // none, and if no address is allocated twice, the allocations add up to the sum of all balances.
  lemma {:induction false} AllocationsAddUp(sha3: Code -> Hash, allocations: seq<Allocation>)
    ensures var after := AllocatedAll(sha3, World(map[], map[], map[]), allocations).accounts;
            && Keyed(after)
            && (forall i :: 0 <= i < |allocations| && (forall j :: i < j < |allocations| ==>
                              allocations[j].address != allocations[i].address) ==>
                              AccountAt(after, allocations[i].address).balance == allocations[i].balance)
            && (forall x :: (forall i :: 0 <= i < |allocations| ==> allocations[i].address != x) ==>
                              AccountAt(after, x).balance == 0)
            && (DifferentAddresses(allocations) ==> Total(after) == Supply(allocations))
    decreases |allocations|
  {
    hide Total, Allocated, AccountAt;
    var n, none := |allocations|, World(map[], map[], map[]);
    if n > 0 {
      var a, before := allocations[n - 1], allocations[..n - 1];
      AllocationsAddUp(sha3, before);
      AllocationSetsBalance(sha3, AllocatedAll(sha3, none, before), a);
    } else {
      NothingAllocated();
    }
  }

  lemma NothingAllocated()
    ensures Total(map[]) == 0 && forall x :: AccountAt(map[], x).balance == 0
  {
  }

  // For every address that an entry under one of the keys has as its own, one such entry.
  predicate ChosenFrom(modified: map<Address, Account>, keys: set<Address>, m: map<Address, Account>)
    requires keys <= modified.Keys
  {
    && Keyed(m)
    && (forall k :: k in keys ==> modified[k].address in m)
    && (forall x :: x in m ==> exists k :: k in keys && modified[k] == m[x])
  }

  predicate Chosen(modified: map<Address, Account>, m: map<Address, Account>) {
    ChosenFrom(modified, modified.Keys, m)
  }

  lemma NothingChosen(modified: map<Address, Account>)
    ensures ChosenFrom(modified, {}, map[])
  {
  }

  lemma ChooseOneMore(modified: map<Address, Account>, keys: set<Address>, m: map<Address, Account>, k: Address)
    requires keys <= modified.Keys && k in modified && ChosenFrom(modified, keys, m)
    ensures ChosenFrom(modified, keys + {k}, m[modified[k].address := modified[k]])
  {
    var m1 := m[modified[k].address := modified[k]];
    forall x | x in m1 ensures exists j :: j in keys + {k} && modified[j] == m1[x] {
      if x == modified[k].address {
        assert k in keys + {k} && modified[k] == m1[x];
      } else {
        var j :| j in keys && modified[j] == m[x];
        assert j in keys + {k};
      }
    }
  }

  lemma KeyedIsChosen(modified: map<Address, Account>, m: map<Address, Account>)
    requires Chosen(modified, m)
    ensures Keyed(modified) ==> m == modified
  {
  }

  class AccountState {
    const sha3: Code -> Hash
    var accounts: map<Address, Account>
    var code: map<Address, Code>
    var storage: map<Address, map<Hash, Hash>>

    ghost function View(): World
      reads this
    {
      World(accounts, code, storage)
    }

    ghost predicate Valid()
      reads this
    {
      Pruned(accounts)
    }

    constructor (sha3: Code -> Hash)
      ensures Valid() && View() == World(map[], map[], map[]) && this.sha3 == sha3
    {
      this.sha3 := sha3;
      accounts, code, storage := map[], map[], map[];
    }

    method SetAccount(a: Account)
      requires Valid()
      modifies `accounts
      ensures Valid() && accounts == Put(old(accounts), a)
    {
      if IsEmpty(a) {
        accounts := accounts - {a.address};
      } else {
        accounts := accounts[a.address := a];
      }
    }

    method Transfer(from: Address, to: Address, amount: u128) returns (r: Result<(), TransferError>)
      requires Valid()
      modifies `accounts
      ensures Valid() && Total(accounts) == old(Total(accounts))
      ensures match Transferred(old(accounts), from, to, amount)
              case Ok(after) => r == Ok(()) && accounts == after
              case Err(e) => r == Err(e) && accounts == old(accounts)
    {
      hide Put, Total;
      if from == to {
        return Ok(());
      }
      var source, target := AccountAt(accounts, from), AccountAt(accounts, to);
      if source.balance < amount {
        return Err(InsufficientBalance);
      }
      if target.balance + amount >= U128 {
        return Err(BalanceOverflow);
      }
      TransferConserves(accounts, from, to, amount);
      SetAccount(source.(balance := source.balance - amount));
      SetAccount(target.(balance := target.balance + amount));
      return Ok(());
    }

    method SetCode(x: Address, newCode: Code)
      requires Valid()
      modifies `accounts, `code
      ensures Valid()
      ensures var s := old(SlotAt(View(), x));
              SlotAt(View(), x) == s.(contract := WithCode(sha3, x, s.contract, newCode))
      ensures forall y :: y != x ==> SlotAt(View(), y) == old(SlotAt(View(), y))
      ensures View() == Coded(sha3, old(View()), x, newCode)
    {
      SetAccount(AccountAt(accounts, x).(codeHash := sha3(newCode)));
      code := code[x := newCode];
    }

    // The accounts that a chain starts with, in order.
    method Allocate(allocations: seq<Allocation>)
      requires Valid()
      modifies `accounts, `code
      ensures Valid() && View() == AllocatedAll(sha3, old(View()), allocations)
    {
      hide Put, Coded;
      for i := 0 to |allocations|
        invariant Valid()
        invariant View() == AllocatedAll(sha3, old(View()), allocations[..i])
      {
        var a := allocations[i];
        assert allocations[..i + 1][..i] == allocations[..i];
        SetAccount(NewAccount(a.address).(balance := a.balance));
        if a.code.Some? {
          SetCode(a.address, a.code.value);
        }
      }
      assert allocations[..|allocations|] == allocations;
    }

    method SetStorage(x: Address, key: Hash, value: Hash)
      modifies `storage
      ensures storage == old(storage)[x := WritesAt(old(storage), x)[key := value]]
    {
      storage := storage[x := WritesAt(storage, x)[key := value]];
    }

    // Applying a set of changes; entries of maps are gone through in any order. Where modified accounts are not
    // listed under their own addresses, two of them may have the same address, and then the order decides.
    method ApplyChanges(c: Changes)
      requires Valid()
      modifies this
      ensures Valid()
      ensures exists m :: Chosen(c.modified, m) && Applies(sha3, old(View()), c.(modified := m), View())
      ensures Keyed(c.modified) ==> Applies(sha3, old(View()), c, View())
    {
      hide SlotAt, Modified, WithCodes, Written, Pruned, Keyed, Chosen;
      ghost var m := ModifyAll(c.modified);
      KeyedIsChosen(c.modified, m);
      DeleteAll(c.deleted);
      CreateAll(c.created);
      WriteAll(c.writes);
    }

    method ModifyAll(modified: map<Address, Account>) returns (ghost m: map<Address, Account>)
      requires Valid()
      modifies `accounts
      ensures Valid() && Chosen(modified, m)
      ensures forall x :: SlotAt(View(), x) ==
                          var s := old(SlotAt(View(), x)); s.(contract := Modified(s.contract, Lookup(m, x)))
    {
      hide ChosenFrom;
      var rest := modified.Keys;
      ghost var done := {};
      m := map[];
      NothingChosen(modified);
      while rest != {}
        invariant done <= modified.Keys && rest == modified.Keys - done && Valid() && ChosenFrom(modified, done, m)
        invariant forall x :: Lookup(accounts, x) == if x in m then Kept(m[x]) else Lookup(old(accounts), x)
        decreases |rest|
      {
        var k :| k in rest;
        ChooseOneMore(modified, done, m, k);
        rest, done := rest - {k}, done + {k};
        m := m[modified[k].address := modified[k]];
        SetAccount(modified[k]);
      }
      assert done == modified.Keys;
    }

    method DeleteAll(deleted: seq<Address>)
      requires Valid()
      modifies this
      ensures Valid()
      ensures forall x :: SlotAt(View(), x) == if x in deleted then Slot(NO_CONTRACT, None) else old(SlotAt(View(), x))
    {
      for i := 0 to |deleted|
        invariant Valid()
        invariant forall x :: SlotAt(View(), x) ==
                              if x in deleted[..i] then Slot(NO_CONTRACT, None) else old(SlotAt(View(), x))
      {
        assert deleted[..i + 1] == deleted[..i] + [deleted[i]];
        accounts := accounts - {deleted[i]};
        code := code - {deleted[i]};
        storage := storage - {deleted[i]};
      }
      assert deleted[..|deleted|] == deleted;
    }

    method CreateAll(created: seq<(Address, Code)>)
      requires Valid()
      modifies `accounts, `code
      ensures Valid()
      ensures forall x :: SlotAt(View(), x) ==
                          var s := old(SlotAt(View(), x));
                          s.(contract := WithCodes(sha3, x, s.contract, CodesFor(created, x)))
    {
      hide SlotAt, Pruned;
      for i := 0 to |created|
        invariant Valid()
        invariant forall x :: SlotAt(View(), x) ==
                              var s := old(SlotAt(View(), x));
                              s.(contract := WithCodes(sha3, x, s.contract, CodesFor(created[..i], x)))
      {
        assert created[..i + 1][..i] == created[..i];
        SetCode(created[i].0, created[i].1);
      }
      assert created[..|created|] == created;
    }

    method WriteAll(writes: map<Address, map<Hash, Hash>>)
      modifies `storage
      ensures forall x :: SlotAt(View(), x) ==
                          var s := old(SlotAt(View(), x)); s.(storage := Written(s.storage, WritesAt(writes, x)))
    {
      var rest := writes.Keys;
      while rest != {}
        invariant rest <= writes.Keys
        invariant forall x :: Lookup(storage, x) ==
                              if x in writes.Keys - rest then Written(Lookup(old(storage), x), writes[x])
                              else Lookup(old(storage), x)
        decreases |rest|
      {
        var x :| x in rest;
        rest := rest - {x};
        WriteEntries(x, writes[x]);
      }
    }

    method WriteEntries(x: Address, entries: map<Hash, Hash>)
      modifies `storage
      ensures Lookup(storage, x) == Written(Lookup(old(storage), x), entries)
      ensures forall y :: y != x ==> Lookup(storage, y) == Lookup(old(storage), y)
    {
      var rest := entries.Keys;
      ghost var done := map[];
      while rest != {}
        invariant rest <= entries.Keys && done.Keys == entries.Keys - rest
        invariant forall k :: k in done ==> done[k] == entries[k]
        invariant Lookup(storage, x) == Written(Lookup(old(storage), x), done)
        invariant forall y :: y != x ==> Lookup(storage, y) == Lookup(old(storage), y)
        decreases |rest|
      {
        var k :| k in rest;
        rest := rest - {k};
        WrittenStep(Lookup(old(storage), x), done, k, entries[k]);
        done := done[k := entries[k]];
        assert WritesAt(storage, x) == if Lookup(storage, x).Some? then Lookup(storage, x).value else map[];
        SetStorage(x, k, entries[k]);
      }
      assert done == entries;
    }
  }

  lemma WrittenStep(st: Option<map<Hash, Hash>>, done: map<Hash, Hash>, k: Hash, v: Hash)
    ensures var before := Written(st, done);
            Written(st, done[k := v]) == Some((if before.Some? then before.value else map[])[k := v])
  {
    var base := if st.Some? then st.value else map[];
    assert base + done[k := v] == (base + done)[k := v];
    assert base + map[] == base;
    assert k in done[k := v];
  }
}
