/** Orphans: which of them wait, which are lost, and which wait for ever. */
module ChainOrphans {
  import opened Ints
  import opened Wrappers
  import opened Chain
  import opened ChainProperties

  lemma {:induction false} RunAppends(rules: Rules, st: State, events: seq<Event>, more: seq<Event>)
    ensures Run(rules, st, events + more) == Run(rules, Run(rules, st, events), more)
    decreases |events|
  {
    hide After;
    if events == [] {
      assert [] + more == more;
    } else {
      assert (events + more)[0] == events[0] && (events + more)[1..] == events[1..] + more;
      RunAppends(rules, After(rules, st, events[0]), events[1..], more);
    }
  }

  // ---------- Waiting for genesis ----------

  // A block that was delivered before genesis and waits for it stays in the pool, although its parent is now
  // stored, until the chain is reopened.
  lemma {:induction false} EarlyOrphanStays(rules: Rules, st: State, g: Hash, s: nat, but: set<Hash>,
                                            events: seq<Event>)
    requires Inv(rules, st, g, s, but) && g in st.pending && Reopen !in events
    ensures var after := Run(rules, st, events).pending; g in after && after[g] == st.pending[g]
    decreases |events|
  {
    hide Inv, After;
    if events != [] {
      var e := events[0];
      EventKeepsInv(rules, st, g, s, but, e);
      EventKeepsOrphan(rules, st, g, s, but, e);
      EarlyOrphanStays(rules, After(rules, st, e), g, s, but, events[1..]);
    }
  }

  lemma EventKeepsOrphan(rules: Rules, st: State, g: Hash, s: nat, but: set<Hash>, e: Event)
    requires Inv(rules, st, g, s, but) && g in st.pending && !e.Reopen?
    ensures var after := After(rules, st, e).pending; g in after && after[g] == st.pending[g]
  {
    hide Logged, BestHead, Indexed, Findable, Knows, Import;
    match e
    case Deliver(block, powHash, clock) => ImportKeepsOrphan(rules, st, g, block, powHash, clock, 0);
    case InitAgain(_, _) =>
  }

  lemma ImportKeepsOrphan(rules: Rules, st: State, g: Hash, block: Block, powHash: Hash, clock: nat -> u64, k: nat)
    requires GetBlock(st.ledger, g).Some? && g in st.pending
    ensures var after := Import(rules, st, block, powHash, clock, k).0.pending; g in after && after[g] == st.pending[g]
    decreases |st.pending|, 1
  {
    hide Import, Accept, ValidateBlock, MeetsTarget;
    ImportCases(rules, st, block, powHash, clock, k);
    AcceptAdds(rules, st.ledger, block, powHash);
    var h, l1 := rules.hash(block.header), Accept(rules, st.ledger, block, powHash);
    if h != g {
      PendingKeepsOrphan(rules, st.(ledger := l1), g, h, clock, k + 1);
    }
  }

  lemma PendingKeepsOrphan(rules: Rules, st: State, g: Hash, h: Hash, clock: nat -> u64, k: nat)
    requires GetBlock(st.ledger, g).Some? && g in st.pending && h != g
    ensures var after := ProcessPending(rules, st, h, clock, k).0.pending; g in after && after[g] == st.pending[g]
    decreases |st.pending|, 0
  {
    hide Import, MeetsTarget;
    if h in st.pending {
      var block, rest := st.pending[h], st.pending - {h};
      assert rest.Keys == st.pending.Keys - {h};
      ImportKeepsOrphan(rules, st.(pending := rest), g, block, rules.pow(block.header), clock, k);
    }
  }

  // Some orphan waits although its parent is stored.
  ghost predicate Stuck(st: State) {
    exists k :: k in st.pending && k in st.ledger.headers
  }

  // After genesis there is one if and only if one was waiting for genesis, and until a restart.
  lemma StuckIff(rules: Rules, st: State, difficulty: u128, other: seq<u8>, events: seq<Event>)
    requires Unborn(st)
    ensures Stuck(Run(rules, InitGenesis(rules, st, difficulty, other).0, events)) <==>
            rules.hash(Genesis(difficulty, other).header) in st.pending && Reopen !in events
  {
    hide Run, Keyed, Logged, BestHead, Indexed, Findable, Knows, TotalDifficulty;
    var g, st1 := rules.hash(Genesis(difficulty, other).header), InitGenesis(rules, st, difficulty, other).0;
    var but := st.pending.Keys * {g};
    GenesisEstablishesInv(rules, st, difficulty, other);
    RunKeepsInv(rules, st1, g, 0, but, events);
    if g in st.pending && Reopen !in events {
      EarlyOrphanStays(rules, st1, g, 0, but, events);
    } else {
      assert g !in st.pending ==> but == {};
    }
  }

  // A block with this parent was delivered, and no restart came after it.
  ghost predicate Awaited(events: seq<Event>, g: Hash) {
    exists i :: 0 <= i < |events| && Brings(events[i], g) && Reopen !in events[i..]
  }

  predicate Brings(e: Event, g: Hash) {
    e.Deliver? && e.block.header.parentHash == g
  }

  lemma AwaitedStep(events: seq<Event>, g: Hash)
    requires events != []
    ensures Awaited(events, g) <==> (Brings(events[0], g) && Reopen !in events) || Awaited(events[1..], g)
  {
    assert events[0..] == events;
    forall i | 0 < i < |events| ensures events[i..] == events[1..][i - 1..] && events[i] == events[1..][i - 1] {
    }
    if i :| 0 <= i < |events[1..]| && Brings(events[1..][i], g) && Reopen !in events[1..][i..] {
      assert events[i + 1..] == events[1..][i..] && events[i + 1] == events[1..][i];
    }
  }

  lemma {:induction false} EarlyPool(rules: Rules, st: State, events: seq<Event>, g: Hash)
    requires Unborn(st) && forall e :: e in events ==> !e.InitAgain?
    ensures var after := Run(rules, st, events);
            Unborn(after) && (g in after.pending <==> (g in st.pending && Reopen !in events) || Awaited(events, g))
    decreases |events|
  {
    hide Import;
    if events != [] {
      var e, rest := events[0], events[1..];
      assert e in events && forall x :: x in rest ==> x in events;
      assert Reopen in events <==> e.Reopen? || Reopen in rest;
      if e.Deliver? {
        ImportCases(rules, st, e.block, e.powHash, e.clock, 0);
      }
      EarlyPool(rules, After(rules, st, e), rest, g);
      AwaitedStep(events, g);
    }
  }

  // So in a run from an empty database an orphan waits for a stored parent, which is genesis, if and only if a child
  // of genesis was delivered before it, and the chain was not restarted since.
  lemma EarlyOrphanIff(rules: Rules, before: seq<Event>, difficulty: u128, other: seq<u8>, after: seq<Event>)
    requires forall e :: e in before ==> !e.InitAgain?
    ensures Stuck(Run(rules, EMPTY, before + [InitAgain(difficulty, other)] + after)) <==>
            Awaited(before, rules.hash(Genesis(difficulty, other).header)) && Reopen !in after
  {
    hide InitGenesis, Stuck, Awaited;
    var g, e := rules.hash(Genesis(difficulty, other).header), InitAgain(difficulty, other);
    EarlyPool(rules, EMPTY, before, g);
    RunAppends(rules, EMPTY, before, [e]);
    RunAppends(rules, EMPTY, before + [e], after);
    var st := Run(rules, EMPTY, before);
    assert [e][1..] == [];
    assert Run(rules, st, [e]) == Run(rules, InitGenesis(rules, st, difficulty, other).0, []);
    StuckIff(rules, st, difficulty, other, after);
  }

  // Such a run: a child of genesis comes first.
  lemma EarlyOrphanWaits()
    ensures Stuck(Run(FORK_RULES, EMPTY, [Deliver(FIRST, 0, (k: nat) => 1704067200), InitAgain(2, [])]))
  {
    hide Run, Stuck;
    var e := Deliver(FIRST, 0, (k: nat) => 1704067200);
    assert [e][0..] == [e] && Brings([e][0], 0);
    assert Awaited([e], 0);
    EarlyOrphanIff(FORK_RULES, [e], 2, [], []);
    assert [e] + [InitAgain(2, [])] + [] == [e, InitAgain(2, [])];
  }

  // ---------- Waiting for any other block ----------

  // The event puts an orphan into the pool if that parent is missing: known blocks are ignored.
  predicate Orphaned(rules: Rules, st: State, e: Event, p: Hash) {
    Brings(e, p) && !Has(st.ledger, rules.hash(e.block.header))
  }

  // The i-th event was the last to touch the pool's entry for this parent, and filled it.
  predicate LastOrphan(rules: Rules, events: seq<Event>, i: nat, p: Hash) {
    && i < |events| && Orphaned(rules, Run(rules, EMPTY, events[..i]), events[i], p)
    && forall j :: i < j < |events| ==>
         !events[j].Reopen? && !Orphaned(rules, Run(rules, EMPTY, events[..j]), events[j], p)
  }

  // Two pools agree on the entries for blocks that are not stored.
  ghost predicate SameOutside(before: map<Hash, Block>, after: map<Hash, Block>, l: Ledger) {
    forall k :: k !in l.headers ==> (k in after <==> k in before) && (k in after ==> after[k] == before[k])
  }

  // Importing a block whose parent is stored only takes out orphans whose parents are stored.
  lemma ImportTakesStored(rules: Rules, st: State, block: Block, powHash: Hash, clock: nat -> u64, k: nat)
    requires st.ledger.headers.Keys == st.ledger.bodies.Keys && block.header.parentHash in st.ledger.headers
    requires forall h :: h in st.pending ==> st.pending[h].header.parentHash == h
    ensures var after := Import(rules, st, block, powHash, clock, k).0;
            && st.ledger.headers.Keys <= after.ledger.headers.Keys
            && SameOutside(st.pending, after.pending, after.ledger)
    decreases |st.pending|, 1
  {
    hide Import, Accept, ValidateBlock, MeetsTarget;
    ImportCases(rules, st, block, powHash, clock, k);
    AcceptAdds(rules, st.ledger, block, powHash);
    var h, l1 := rules.hash(block.header), Accept(rules, st.ledger, block, powHash);
    PendingTakesStored(rules, st.(ledger := l1), h, clock, k + 1);
  }

  lemma PendingTakesStored(rules: Rules, st: State, h: Hash, clock: nat -> u64, k: nat)
    requires st.ledger.headers.Keys == st.ledger.bodies.Keys && h in st.ledger.headers
    requires forall h :: h in st.pending ==> st.pending[h].header.parentHash == h
    ensures var after := ProcessPending(rules, st, h, clock, k).0;
            && st.ledger.headers.Keys <= after.ledger.headers.Keys
            && SameOutside(st.pending, after.pending, after.ledger)
    decreases |st.pending|, 0
  {
    hide Import, MeetsTarget;
    if h in st.pending {
      var block, rest := st.pending[h], st.pending - {h};
      assert rest.Keys == st.pending.Keys - {h};
      if MeetsTarget(rules, block.header, rules.pow(block.header)) {
        ImportTakesStored(rules, st.(pending := rest), block, rules.pow(block.header), clock, k);
      }
    }
  }

  // What an event does to the pool's entry for a block that is not stored afterwards.
  lemma EntryAfter(rules: Rules, st: State, s: nat, e: Event, p: Hash)
    requires Alive(rules, st, s) && p !in After(rules, st, e).ledger.headers
    ensures p !in st.ledger.headers
    ensures var before, after := st.pending, After(rules, st, e).pending;
            if e.Reopen? then p !in after
            else if Orphaned(rules, st, e, p) then p in after && after[p] == e.block
            else (p in after <==> p in before) && (p in after ==> after[p] == before[p])
  {
    hide Import, Logged, Ancestry, BestHead, Indexed, Findable, Knows;
    match e
    case Deliver(block, powHash, clock) =>
      ImportCases(rules, st, block, powHash, clock, 0);
      if block.header.parentHash in st.ledger.headers {
        ImportTakesStored(rules, st, block, powHash, clock, 0);
      }
    case InitAgain(_, _) =>
    case Reopen =>
  }

  predicate Fills(events: seq<Event>, i: nat, p: Hash, pending: map<Hash, Block>) {
    i < |events| && Brings(events[i], p) && p in pending && pending[p] == events[i].block
  }

  // After any run from an empty database, the pool has an entry for a block that is not stored if and only if an
  // orphan was delivered for it since the last restart, and the entry is the last of these. So every earlier one
  // of them is lost.
  lemma {:induction false} PoolIsLastOrphan(rules: Rules, events: seq<Event>, p: Hash)
    requires p !in Run(rules, EMPTY, events).ledger.headers
    ensures var pending := Run(rules, EMPTY, events).pending;
            && (p in pending <==> exists i: nat :: LastOrphan(rules, events, i, p))
            && forall i: nat :: LastOrphan(rules, events, i, p) ==> Fills(events, i, p, pending)
    decreases |events|
  {
    hide Run, After, Orphaned, LastOrphan;
    if events == [] {
      NoneYet(rules, p);
    } else {
      var front, e := events[..|events| - 1], events[|events| - 1];
      assert events == front + [e];
      var st := Run(rules, EMPTY, front);
      RunOneMore(rules, EMPTY, front, e);
      EveryRunKeepsAlive(rules, EMPTY, 0, front);
      EntryAfter(rules, st, Opening(rules, EMPTY, 0, front), e, p);
      PoolIsLastOrphan(rules, front, p);
      LastOrphanOneMore(rules, front, e, |front|, p);
      forall i: nat | LastOrphan(rules, events, i, p) && i != |front|
        ensures LastOrphan(rules, front, i, p) && !e.Reopen? && !Orphaned(rules, st, e, p)
      {
        LastOrphanOneMore(rules, front, e, i, p);
      }
      if i: nat :| LastOrphan(rules, front, i, p) {
        LastOrphanOneMore(rules, front, e, i, p);
      }
      assert Orphaned(rules, st, e, p) ==> Brings(e, p) by { OrphanedBrings(rules, st, e, p); }
    }
  }

  lemma OrphanedBrings(rules: Rules, st: State, e: Event, p: Hash)
    ensures Orphaned(rules, st, e, p) ==> Brings(e, p)
  {
  }

  lemma NoneYet(rules: Rules, p: Hash)
    ensures Run(rules, EMPTY, []).pending == map[] && forall i: nat :: !LastOrphan(rules, [], i, p)
  {
  }

  lemma RunOneMore(rules: Rules, st: State, events: seq<Event>, e: Event)
    ensures Run(rules, st, events + [e]) == After(rules, Run(rules, st, events), e)
  {
    hide After;
    RunAppends(rules, st, events, [e]);
    assert [e][1..] == [];
  }

  lemma LastOrphanOneMore(rules: Rules, front: seq<Event>, e: Event, i: nat, p: Hash)
    ensures LastOrphan(rules, front + [e], i, p) <==>
            var orphaned := Orphaned(rules, Run(rules, EMPTY, front), e, p);
            if i == |front| then orphaned else LastOrphan(rules, front, i, p) && !e.Reopen? && !orphaned
  {
    hide Orphaned, Run;
    var events := front + [e];
    forall j | 0 <= j <= |front| ensures events[..j] == front[..j] {
    }
    assert front[..|front|] == front;
    assert events[|front|] == e && forall j :: 0 <= j < |front| ==> events[j] == front[j];
    assert Orphaned(rules, Run(rules, EMPTY, events[..|front|]), events[|front|], p) <==>
           Orphaned(rules, Run(rules, EMPTY, front), e, p);
    forall j | 0 <= j < |front|
      ensures Orphaned(rules, Run(rules, EMPTY, events[..j]), events[j], p) <==>
              Orphaned(rules, Run(rules, EMPTY, front[..j]), front[j], p)
    {
    }
  }

  // Such a run: two children arrive before their parent, and when it comes only the second is stored.
  const CHILD2: Block := Block(Header(2, 1704067200, 1, 5, 2, 3, 0, []), [])
  const CHILD3: Block := Block(Header(2, 1704067200, 1, 5, 3, 3, 0, []), [])

  lemma SiblingIsLost()
    ensures var clock := (k: nat) => 1704067200;
            var st := Reached(FORK_RULES, 2, [],
                              [Deliver(CHILD2, 0, clock), Deliver(CHILD3, 0, clock), Deliver(FIRST, 0, clock)]);
            st.ledger.headers.Keys == {0, 1, 3} && st.pending == map[]
  {
    var clock := (k: nat) => 1704067200;
    var e2, e3, e1 := Deliver(CHILD2, 0, clock), Deliver(CHILD3, 0, clock), Deliver(FIRST, 0, clock);
    var st0 := InitGenesis(FORK_RULES, EMPTY, 2, []).0;
    ImportCases(FORK_RULES, st0, CHILD2, 0, clock, 0);
    var st1 := st0.(pending := map[1 := CHILD2]);
    assert After(FORK_RULES, st0, e2) == st1;
    ImportCases(FORK_RULES, st1, CHILD3, 0, clock, 0);
    var st2 := st0.(pending := map[1 := CHILD3]);
    assert After(FORK_RULES, st1, e3) == st2;
    RunOfTwo(FORK_RULES, st0, e2, e3);
    RunOneMore(FORK_RULES, st0, [e2, e3], e1);
    assert [e2, e3] + [e1] == [e2, e3, e1];
    FirstWakesChild(clock);
  }

  lemma FirstWakesChild(clock: nat -> u64)
    requires forall k :: clock(k) == 1704067200
    ensures var st := InitGenesis(FORK_RULES, EMPTY, 2, []).0.(pending := map[1 := CHILD3]);
            var after := Import(FORK_RULES, st, FIRST, 0, clock, 0).0;
            after.ledger.headers.Keys == {0, 1, 3} && after.pending == map[]
  {
    var st := InitGenesis(FORK_RULES, EMPTY, 2, []).0.(pending := map[1 := CHILD3]);
    ImportCases(FORK_RULES, st, FIRST, 0, clock, 0);
    var l1 := Accept(FORK_RULES, st.ledger, FIRST, 0);
    var st1 := State(l1, map[]);
    assert st.pending - {1} == map[];
    ImportCases(FORK_RULES, st1, CHILD3, 0, clock, 1);
    assert Import(FORK_RULES, st1, CHILD3, 0, clock, 1).0 == State(Accept(FORK_RULES, l1, CHILD3, 0), map[]);
  }
}
