/** Order of delivery does not matter: the blocks of a valid linear chain, delivered in any order and with
    repetitions, leave the same state behind. */
module ChainDelivery {
  import opened Ints
  import opened Wrappers
  import opened Chain
  import opened ChainProperties

  // The hash of the i-th block of a chain.
  function H(rules: Rules, chain: seq<Block>, i: nat): Hash
    requires i < |chain|
  {
    rules.hash(chain[i].header)
  }

  // A genesis block and blocks that each follow the one before, with pairwise different hashes and with
  // enough work.
  ghost predicate LinearChain(rules: Rules, chain: seq<Block>) {
    && chain != []
    && (exists difficulty, other :: chain[0] == Genesis(difficulty, other))
    && (forall i, j :: 0 <= i < j < |chain| ==> H(rules, chain, i) != H(rules, chain, j))
    && (forall i :: 0 < i < |chain| ==> chain[i].header.parentHash == H(rules, chain, i - 1))
    && (forall i :: 0 < i < |chain| ==> MeetsTarget(rules, chain[i].header, rules.pow(chain[i].header)))
  }

  lemma HashesDiffer(rules: Rules, chain: seq<Block>, i: nat, j: nat)
    requires LinearChain(rules, chain) && i < |chain| && j < |chain|
    ensures H(rules, chain, i) == H(rules, chain, j) <==> i == j
  {
  }

  // The i-th block of the chain arrives, at the times the clock gives.
  datatype Delivery = Delivery(i: nat, clock: nat -> u64)

  // The delivered block is one of the chain, and every block passes validation whenever the clock is read.
  ghost predicate Timely(rules: Rules, chain: seq<Block>, d: Delivery) {
    && 0 < d.i < |chain|
    && forall i, k: nat :: 0 < i < |chain| ==> ValidateBlock(rules, chain[i], Some(chain[i - 1]), d.clock(k)) == None
  }

  ghost predicate AllTimely(rules: Rules, chain: seq<Block>, ds: seq<Delivery>) {
    forall d :: d in ds ==> d.i < |chain| && Timely(rules, chain, d)
  }

  function EventOf(rules: Rules, chain: seq<Block>, d: Delivery): Event
    requires d.i < |chain|
  {
    Deliver(chain[d.i], rules.pow(chain[d.i].header), d.clock)
  }

  function Events(rules: Rules, chain: seq<Block>, ds: seq<Delivery>): seq<Event>
    requires forall d :: d in ds ==> d.i < |chain|
  {
    if ds == [] then [] else [EventOf(rules, chain, ds[0])] + Events(rules, chain, ds[1..])
  }

  // The ledger after blocks 1 to m were accepted in order.
  function Grown(rules: Rules, chain: seq<Block>, m: nat): Ledger
    requires m < |chain|
  {
    if m == 0 then
      var stored := StoredBlock(chain[0], Meta(H(rules, chain, 0), chain[0].header.difficulty));
      SetHead(Put(rules, EMPTY.ledger, stored), stored)
    else Accept(rules, Grown(rules, chain, m - 1), chain[m], rules.pow(chain[m].header))
  }

  // Exactly the first blocks of the chain are stored.
  ghost predicate Holds(rules: Rules, chain: seq<Block>, l: Ledger, m: nat)
    requires m < |chain|
  {
    && (forall i :: 0 <= i <= m ==> Has(l, H(rules, chain, i)) && GetBlock(l, H(rules, chain, i)) == Some(chain[i]))
    && (forall h :: Has(l, h) ==> exists i :: 0 <= i <= m && h == H(rules, chain, i))
  }

  lemma {:induction false} GrownHolds(rules: Rules, chain: seq<Block>, m: nat)
    requires LinearChain(rules, chain) && m < |chain|
    ensures Holds(rules, chain, Grown(rules, chain, m), m)
  {
    hide Accept;
    if m > 0 {
      GrownHolds(rules, chain, m - 1);
      AcceptExtends(rules, chain, Grown(rules, chain, m - 1), m, rules.pow(chain[m].header));
    }
  }

  lemma HashOfBlock(rules: Rules, chain: seq<Block>, i: nat)
    requires i < |chain|
    ensures H(rules, chain, i) == rules.hash(chain[i].header)
  {
  }

  lemma AcceptExtends(rules: Rules, chain: seq<Block>, l: Ledger, m: nat, powHash: Hash)
    requires LinearChain(rules, chain) && 0 < m < |chain| && Holds(rules, chain, l, m - 1)
    ensures Holds(rules, chain, Accept(rules, l, chain[m], powHash), m)
  {
    hide Accept, LinearChain, H;
    var l1 := Accept(rules, l, chain[m], powHash);
    assert H(rules, chain, m) == rules.hash(chain[m].header) by { HashOfBlock(rules, chain, m); }
    AcceptAdds(rules, l, chain[m], powHash);
    forall i | 0 <= i <= m ensures Has(l1, H(rules, chain, i)) && GetBlock(l1, H(rules, chain, i)) == Some(chain[i]) {
      HashesDiffer(rules, chain, i, m);
    }
    forall h | Has(l1, h) ensures exists i :: 0 <= i <= m && h == H(rules, chain, i) {
      assert h == H(rules, chain, m) || Has(l, h);
    }
  }

  // The pool holds exactly the blocks of `delivered` behind the m-th, each under its parent's hash.
  ghost predicate Pools(rules: Rules, chain: seq<Block>, pending: map<Hash, Block>, delivered: set<nat>, m: nat) {
    && (forall i :: i in delivered && m < i < |chain| ==>
                      H(rules, chain, i - 1) in pending && pending[H(rules, chain, i - 1)] == chain[i])
    && (forall h :: h in pending ==> exists i :: i in delivered && m < i < |chain| && h == H(rules, chain, i - 1))
  }

  // The chain up to m is stored and the rest of what was delivered waits.
  ghost predicate Stage(rules: Rules, chain: seq<Block>, st: State, delivered: set<nat>, m: nat) {
    m < |chain| && st.ledger == Grown(rules, chain, m) && Pools(rules, chain, st.pending, delivered, m)
    && forall i :: 0 < i <= m ==> i in delivered
  }

  // ... and nothing that waits could be stored.
  ghost predicate Rest(rules: Rules, chain: seq<Block>, st: State, delivered: set<nat>, m: nat) {
    Stage(rules, chain, st, delivered, m) && m + 1 !in delivered
  }

  // Accepting the next block of the chain.
  lemma ImportNext(rules: Rules, chain: seq<Block>, st: State, m: nat, d: Delivery, k: nat)
    requires LinearChain(rules, chain) && Timely(rules, chain, d)
    requires m + 1 < |chain| && st.ledger == Grown(rules, chain, m)
    ensures Import(rules, st, chain[m + 1], rules.pow(chain[m + 1].header), d.clock, k) ==
            ProcessPending(rules, st.(ledger := Grown(rules, chain, m + 1)), H(rules, chain, m + 1), d.clock, k + 1)
  {
    hide Import, ProcessPending, Accept, ValidateBlock, MeetsTarget;
    GrownHolds(rules, chain, m);
    hide Holds;
    ImportCases(rules, st, chain[m + 1], rules.pow(chain[m + 1].header), d.clock, k);
  }

  lemma TakeFromPool(rules: Rules, chain: seq<Block>, pending: map<Hash, Block>, delivered: set<nat>, m: nat)
    requires LinearChain(rules, chain) && m < |chain| && Pools(rules, chain, pending, delivered, m)
    ensures H(rules, chain, m) in pending <==> m + 1 in delivered && m + 1 < |chain|
    ensures H(rules, chain, m) in pending ==> pending[H(rules, chain, m)] == chain[m + 1]
    ensures Pools(rules, chain, pending - {H(rules, chain, m)}, delivered, m + 1)
  {
  }

  // Waiting blocks are stored one after the other until one is missing.
  lemma {:induction false} Drain(rules: Rules, chain: seq<Block>, st: State, delivered: set<nat>, m: nat, d: Delivery,
                                 k: nat)
    returns (m': nat)
    requires LinearChain(rules, chain) && Timely(rules, chain, d) && Stage(rules, chain, st, delivered, m)
    requires forall i :: i in delivered ==> i < |chain|
    ensures Rest(rules, chain, ProcessPending(rules, st, H(rules, chain, m), d.clock, k).0, delivered, m')
    decreases |chain| - m
  {
    hide Import, Grown, LinearChain, Timely, Pools;
    TakeFromPool(rules, chain, st.pending, delivered, m);
    var h := H(rules, chain, m);
    if h in st.pending {
      var st1 := st.(pending := st.pending - {h});
      NextMeetsTarget(rules, chain, m);
      ImportNext(rules, chain, st1, m, d, k);
      m' := Drain(rules, chain, st1.(ledger := Grown(rules, chain, m + 1)), delivered, m + 1, d, k + 1);
    } else {
      m' := m;
    }
  }

  lemma NextMeetsTarget(rules: Rules, chain: seq<Block>, m: nat)
    requires LinearChain(rules, chain) && m + 1 < |chain|
    ensures MeetsTarget(rules, chain[m + 1].header, rules.pow(chain[m + 1].header))
  {
  }

  // One delivery.
  lemma DeliverOne(rules: Rules, chain: seq<Block>, st: State, delivered: set<nat>, m: nat, d: Delivery)
    returns (m': nat)
    requires LinearChain(rules, chain) && Timely(rules, chain, d) && Rest(rules, chain, st, delivered, m)
    requires forall i :: i in delivered ==> i < |chain|
    ensures Rest(rules, chain, After(rules, st, EventOf(rules, chain, d)), delivered + {d.i}, m')
  {
    hide Import, ProcessPending, Grown, LinearChain, Pools;
    var now := delivered + {d.i};
    if d.i == m + 1 {
      var st1 := st.(ledger := Grown(rules, chain, m + 1));
      ImportNext(rules, chain, st, m, d, 0);
      PoolsAfterNext(rules, chain, st.pending, delivered, m);
      m' := Drain(rules, chain, st1, now, m + 1, d, 1);
    } else {
      m' := m;
      ImportOther(rules, chain, st, m, d);
      PoolsAfterOther(rules, chain, st.pending, delivered, m, d.i);
    }
  }

  lemma PoolsAfterNext(rules: Rules, chain: seq<Block>, pending: map<Hash, Block>, delivered: set<nat>, m: nat)
    requires m + 1 < |chain| && Pools(rules, chain, pending, delivered, m) && m + 1 !in delivered
    ensures Pools(rules, chain, pending, delivered + {m + 1}, m + 1)
  {
  }

  lemma PoolsAfterOther(rules: Rules, chain: seq<Block>, pending: map<Hash, Block>, delivered: set<nat>, m: nat, i: nat)
    requires LinearChain(rules, chain) && m < |chain| && 0 < i < |chain| && Pools(rules, chain, pending, delivered, m)
    ensures var after := if i <= m then pending else pending[H(rules, chain, i - 1) := chain[i]];
            Pools(rules, chain, after, delivered + {i}, m)
  {
    hide LinearChain, H;
    forall j | 0 <= j < |chain| ensures H(rules, chain, j) == H(rules, chain, i - 1) <==> j == i - 1 {
      HashesDiffer(rules, chain, i - 1, j);
    }
  }

  // A block that is stored already changes nothing; one whose parent is missing waits.
  lemma ImportOther(rules: Rules, chain: seq<Block>, st: State, m: nat, d: Delivery)
    requires LinearChain(rules, chain) && Timely(rules, chain, d) && d.i != m + 1
    requires m < |chain| && st.ledger == Grown(rules, chain, m)
    ensures After(rules, st, EventOf(rules, chain, d)) ==
            if d.i <= m then st else st.(pending := st.pending[H(rules, chain, d.i - 1) := chain[d.i]])
  {
    hide Import, ProcessPending, Accept, ValidateBlock, MeetsTarget, Grown;
    ImportCases(rules, st, chain[d.i], rules.pow(chain[d.i].header), d.clock, 0);
    GrownHolds(rules, chain, m);
    if d.i <= m {
      assert Has(st.ledger, H(rules, chain, d.i));
    } else {
      NotYet(rules, chain, st.ledger, m, d.i);
      NotYet(rules, chain, st.ledger, m, d.i - 1);
    }
  }

  lemma NotYet(rules: Rules, chain: seq<Block>, l: Ledger, m: nat, i: nat)
    requires LinearChain(rules, chain) && m < i < |chain| && Holds(rules, chain, l, m)
    ensures !Has(l, H(rules, chain, i)) && GetBlock(l, H(rules, chain, i)) == None
  {
  }

  lemma {:induction false} DeliverAll(rules: Rules, chain: seq<Block>, st: State, delivered: set<nat>, m: nat,
                                      ds: seq<Delivery>)
    returns (m': nat, all: set<nat>)
    requires LinearChain(rules, chain) && Rest(rules, chain, st, delivered, m)
    requires forall i :: i in delivered ==> i < |chain|
    requires AllTimely(rules, chain, ds)
    ensures Rest(rules, chain, Run(rules, st, Events(rules, chain, ds)), all, m')
    ensures delivered <= all && (forall i :: i in all ==> i < |chain|) && forall d :: d in ds ==> d.i in all
    decreases |ds|
  {
    hide LinearChain, Rest, After, EventOf;
    if ds == [] {
      m', all := m, delivered;
    } else {
      var d := ds[0];
      assert Timely(rules, chain, d);
      var m1 := DeliverOne(rules, chain, st, delivered, m, d);
      var es := Events(rules, chain, ds);
      assert es[0] == EventOf(rules, chain, d) && es[1..] == Events(rules, chain, ds[1..]);
      m', all := DeliverAll(rules, chain, After(rules, st, es[0]), delivered + {d.i}, m1, ds[1..]);
      forall e | e in ds ensures e.i in all {
        assert e == d || e in ds[1..];
      }
    }
  }

  predicate Covers(ds: seq<Delivery>, n: nat) {
    forall i :: 0 < i < n ==> Brings(ds, i)
  }

  predicate Brings(ds: seq<Delivery>, i: nat) {
    exists j :: 0 <= j < |ds| && ds[j].i == i
  }

  lemma BroughtIsDelivered(ds: seq<Delivery>, delivered: set<nat>, i: nat)
    requires Brings(ds, i) && forall d :: d in ds ==> d.i in delivered
    ensures i in delivered
  {
  }

  // Delivering every block at least once, in any order, stores the whole chain and empties the pool.
  lemma AnyOrderStoresTheChain(rules: Rules, chain: seq<Block>, difficulty: u128, other: seq<u8>, ds: seq<Delivery>)
    requires LinearChain(rules, chain) && chain[0] == Genesis(difficulty, other)
    requires AllTimely(rules, chain, ds) && Covers(ds, |chain|)
    ensures Reached(rules, difficulty, other, Events(rules, chain, ds)) ==
            State(Grown(rules, chain, |chain| - 1), map[])
    ensures Holds(rules, chain, Grown(rules, chain, |chain| - 1), |chain| - 1)
  {
    var st := InitGenesis(rules, EMPTY, difficulty, other).0;
    assert Rest(rules, chain, st, {}, 0);
    hide LinearChain, Grown, InitGenesis, Timely;
    var m, all := DeliverAll(rules, chain, st, {}, 0, ds);
    if m + 1 < |chain| {
      BroughtIsDelivered(ds, all, m + 1);
    }
    GrownHolds(rules, chain, m);
  }

  // So two such deliveries, in whatever orders, end in the same state.
  lemma DeliveryOrderDoesNotMatter(rules: Rules, chain: seq<Block>, difficulty: u128, other: seq<u8>,
                                   ds: seq<Delivery>, es: seq<Delivery>)
    requires LinearChain(rules, chain) && chain[0] == Genesis(difficulty, other)
    requires AllTimely(rules, chain, ds) && Covers(ds, |chain|)
    requires AllTimely(rules, chain, es) && Covers(es, |chain|)
    ensures Reached(rules, difficulty, other, Events(rules, chain, ds)) ==
            Reached(rules, difficulty, other, Events(rules, chain, es))
  {
    hide LinearChain, Reached, AllTimely, Covers, Holds;
    AnyOrderStoresTheChain(rules, chain, difficulty, other, ds);
    AnyOrderStoresTheChain(rules, chain, difficulty, other, es);
  }
}
