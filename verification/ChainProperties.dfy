/** What holds in every run of the chain that starts from a genesis block. */
module ChainProperties {
  import opened Ints
  import opened Wrappers
  import opened Chain

  // ---------- The invariant ----------

  // Headers, bodies and metadata belong to the same blocks, each under its own hash.
  predicate Keyed(rules: Rules, l: Ledger) {
    && l.headers.Keys == l.bodies.Keys == l.meta.Keys
    && forall h :: h in l.headers ==> rules.hash(l.headers[h]) == h
  }

  // Every stored block is in the log once.
  predicate Logged(l: Ledger) {
    && (forall i :: 0 <= i < |l.log| ==> l.log[i] in l.headers)
    && (forall h :: h in l.headers ==> h in l.log)
    && (forall i, j :: 0 <= i < j < |l.log| ==> l.log[i] != l.log[j])
  }

  // h's parent p is stored, one lower and not later, and total difficulties add up (modulo 2^128).
  predicate Linked(l: Ledger, h: Hash, p: Hash) {
    && h in l.headers && p in l.headers
    && l.headers[p].height + 1 == l.headers[h].height
    && l.headers[p].timestamp <= l.headers[h].timestamp
    && TotalDifficulty(l, h) == WrapU128(TotalDifficulty(l, p) + l.headers[h].difficulty)
  }

  predicate Ancestry(l: Ledger, g: Hash) {
    && g in l.headers && l.headers[g].height == 0
    && TotalDifficulty(l, g) == l.headers[g].difficulty
    && forall h {:trigger l.headers[h].parentHash} :: h in l.headers && h != g ==> Linked(l, h, l.headers[h].parentHash)
  }

  predicate HeightAt(l: Ledger, h: Hash, n: nat) {
    h in l.headers && l.headers[h].height == n
  }

  // No block of height n was stored after the i-th.
  predicate NoneAfter(l: Ledger, n: nat, i: nat) {
    forall j :: i < j < |l.log| ==> !HeightAt(l, l.log[j], n)
  }

  // Of all blocks of height n, h was stored last.
  predicate LastAt(l: Ledger, h: Hash, n: nat) {
    exists i :: 0 <= i < |l.log| && l.log[i] == h && HeightAt(l, h, n) && NoneAfter(l, n, i)
  }

  // The height index has the heights of the stored blocks, and under each of them the block stored last.
  predicate Indexed(l: Ledger) {
    && (forall n :: n in l.heights ==> LastAt(l, l.heights[n], n))
    && (forall h :: h in l.headers ==> l.headers[h].height in l.heights)
  }

  // The i-th transaction is the last with this hash.
  predicate LastIn(rules: Rules, body: seq<seq<u8>>, t: Hash, i: nat) {
    i < |body| && rules.txHash(body[i]) == t && forall j :: i < j < |body| ==> rules.txHash(body[j]) != t
  }

  predicate Contains(rules: Rules, body: seq<seq<u8>>, t: Hash) {
    exists i :: 0 <= i < |body| && rules.txHash(body[i]) == t
  }

  predicate Carries(rules: Rules, l: Ledger, h: Hash, t: Hash) {
    h in l.bodies && Contains(rules, l.bodies[h], t)
  }

  // Of all stored blocks that carry the transaction, h was stored last.
  predicate LastCarrier(rules: Rules, l: Ledger, h: Hash, t: Hash) {
    exists i :: 0 <= i < |l.log| && l.log[i] == h && Carries(rules, l, h, t) &&
                forall j :: i < j < |l.log| ==> !Carries(rules, l, l.log[j], t)
  }

  // The location leads to the last stored block with the transaction, and there to the last place (as far as 32
  // bits say it).
  predicate LeadsTo(rules: Rules, l: Ledger, t: Hash, at: Location) {
    && LastCarrier(rules, l, at.block, t) && at.block in l.bodies && HeightAt(l, at.block, at.height)
    && exists i :: 0 <= i < |l.bodies[at.block]| && LastIn(rules, l.bodies[at.block], t, i) &&
                   at.index == i % 0x1_0000_0000
  }

  // Exactly the transactions of stored blocks have locations, and all locations are right.
  ghost predicate Findable(rules: Rules, l: Ledger) {
    && (forall t :: t in l.locations ==> LeadsTo(rules, l, t, l.locations[t]))
    && (forall h, t :: Carries(rules, l, h, t) ==> t in l.locations)
  }

  // The i-th number is the largest of those from s on, and none from s up to it is as large.
  predicate FirstMax(xs: seq<nat>, i: nat, s: nat) {
    && i < |xs|
    && (forall j :: s <= j < |xs| ==> xs[j] <= xs[i])
    && (forall j :: s <= j < i ==> xs[j] < xs[i])
  }

  // The total difficulties of the stored blocks, in the order in which they were stored.
  function Totals(l: Ledger): (ts: seq<nat>)
    ensures |ts| == |l.log|
  {
    seq(|l.log|, i requires 0 <= i < |l.log| => TotalDifficulty(l, l.log[i]))
  }

  predicate IsHead(l: Ledger, h: Hash) {
    && GetBlock(l, h).Some? && h in l.meta
    && l.head == Some(StoredBlock(GetBlock(l, h).value, l.meta[h]))
    && l.latestHeight == Some(l.headers[h].height)
  }

  // Of the blocks stored from position s on none has a larger total difficulty than the head, and none of
  // those stored before the head has as much.
  ghost predicate BestHead(l: Ledger, s: nat) {
    exists i: nat :: FirstMax(Totals(l), i, s) && IsHead(l, l.log[i])
  }

  // The known blocks are those stored from position s on, except genesis.
  predicate Knows(l: Ledger, g: Hash, s: nat) {
    s <= |l.log| && l.known == (set h | h in l.log[s..]) - {g}
  }

  // A ledger on the genesis block g, opened when s blocks were stored.
  ghost predicate Sound(rules: Rules, l: Ledger, g: Hash, s: nat) {
    && Keyed(rules, l) && Logged(l) && Ancestry(l, g) && BestHead(l, s) && Indexed(l) && Findable(rules, l)
    && Knows(l, g, s)
    && l.log != [] && l.log[0] == g
  }

  predicate LoggedHead(l: Ledger, i: nat) {
    i < |l.log| && IsHead(l, l.log[i])
  }

  ghost predicate IsLoggedHead(l: Ledger) {
    exists i: nat :: LoggedHead(l, i)
  }

  // Orphans wait under their parent's hash, and no parent waited for is stored, except those in `but`.
  predicate Waiting(st: State, but: set<Hash>) {
    forall k :: k in st.pending ==> st.pending[k].header.parentHash == k && (k in st.ledger.headers ==> k in but)
  }

  ghost predicate Inv(rules: Rules, st: State, g: Hash, s: nat, but: set<Hash>) {
    Sound(rules, st.ledger, g, s) && Waiting(st, but)
  }

  // ---------- Genesis and restart ----------

  // A chain that has nothing stored yet, whatever was delivered.
  predicate Unborn(st: State) {
    st.ledger == EMPTY.ledger && Waiting(st, {})
  }

  // A block delivered before genesis that waits for it stays in the pool.
  lemma GenesisEstablishesInv(rules: Rules, st: State, difficulty: u128, other: seq<u8>)
    requires Unborn(st)
    ensures var (st1, error) := InitGenesis(rules, st, difficulty, other);
            var g := rules.hash(Genesis(difficulty, other).header);
            error == None && Inv(rules, st1, g, 0, st.pending.Keys * {g})
  {
    hide Keyed, Logged, Ancestry, Indexed, Findable, BestHead, Knows;
    GenesisIsStored(rules, st, difficulty, other);
    GenesisIsHead(rules, st, difficulty, other);
  }

  lemma GenesisIsStored(rules: Rules, st: State, difficulty: u128, other: seq<u8>)
    requires st.ledger == EMPTY.ledger
    ensures var l := InitGenesis(rules, st, difficulty, other).0.ledger;
            var g := rules.hash(Genesis(difficulty, other).header);
            Keyed(rules, l) && Logged(l) && Ancestry(l, g) && Indexed(l) && Findable(rules, l)
  {
    hide LastAt;
    var l, g := InitGenesis(rules, st, difficulty, other).0.ledger, rules.hash(Genesis(difficulty, other).header);
    assert l.log[0] == g;
    LoggedLast(l, 0, g, 0);
  }

  lemma LoggedLast(l: Ledger, i: nat, h: Hash, n: nat)
    requires i < |l.log| && l.log[i] == h && HeightAt(l, h, n) && NoneAfter(l, n, i)
    ensures LastAt(l, h, n)
  {
  }

  lemma GenesisIsHead(rules: Rules, st: State, difficulty: u128, other: seq<u8>)
    requires st.ledger == EMPTY.ledger
    ensures var l := InitGenesis(rules, st, difficulty, other).0.ledger;
            var g := rules.hash(Genesis(difficulty, other).header);
            BestHead(l, 0) && Knows(l, g, 0)
  {
    var l := InitGenesis(rules, st, difficulty, other).0.ledger;
    assert FirstMax(Totals(l), 0, 0) && IsHead(l, l.log[0]);
  }

  // Reopening finds everything stored, and no orphans; the head is the last stored block of its height.
  lemma ReopenKeepsInv(rules: Rules, st: State, g: Hash, s: nat)
    requires Sound(rules, st.ledger, g, s)
    ensures Inv(rules, Reopened(st), g, |st.ledger.log|, {})
  {
    hide Keyed, Logged, Ancestry, Indexed, Findable, Totals;
    var l, l1 := st.ledger, Reopened(st).ledger;
    ReopenKeepsStore(rules, st, g);
    assert IsLoggedHead(l) by {
      var i: nat :| FirstMax(Totals(l), i, s) && IsHead(l, l.log[i]);
      assert LoggedHead(l, i);
    }
    var i: nat :| LoggedHead(l, i);
    var k := LoadsLastAt(rules, l, l.log[i]);
    assert FirstMax(Totals(l1), k, |l.log|);
    assert l.log[|l.log|..] == [];
  }

  lemma ReopenKeepsStore(rules: Rules, st: State, g: Hash)
    requires var l := st.ledger; Keyed(rules, l) && Logged(l) && Ancestry(l, g) && Indexed(l) && Findable(rules, l)
    ensures var l := Reopened(st).ledger;
            Keyed(rules, l) && Logged(l) && Ancestry(l, g) && Indexed(l) && Findable(rules, l)
  {
    hide LoadHead, LastAt, Linked, Findable;
    ReopenKeepsFindable(rules, st);
    var l, l1 := st.ledger, Reopened(st).ledger;
    forall h | h in l1.headers && h != g ensures Linked(l1, h, l1.headers[h].parentHash) {
      LinkedStays(l, l1, h, l.headers[h].parentHash);
    }
    forall n | n in l1.heights ensures LastAt(l1, l1.heights[n], n) {
      LastAtStays(l, l1, l.heights[n], n);
    }
  }

  lemma ReopenKeepsFindable(rules: Rules, st: State)
    requires Findable(rules, st.ledger)
    ensures Findable(rules, Reopened(st).ledger)
  {
    hide LoadHead, LastIn;
    var l, l1 := st.ledger, Reopened(st).ledger;
    assert forall h, t :: Carries(rules, l1, h, t) <==> Carries(rules, l, h, t);
    forall t | t in l1.locations ensures LeadsTo(rules, l1, t, l1.locations[t]) {
      assert LeadsTo(rules, l, t, l.locations[t]);
    }
  }

  lemma LastAtStays(l: Ledger, l1: Ledger, h: Hash, n: nat)
    requires LastAt(l, h, n) && l1.headers == l.headers && l1.log == l.log
    ensures LastAt(l1, h, n)
  {
    var i :| 0 <= i < |l.log| && l.log[i] == h && NoneAfter(l, n, i);
    assert NoneAfter(l1, n, i);
  }

  // A restart loads the last stored block of the head's height.
  lemma LoadsLastAt(rules: Rules, l: Ledger, h: Hash) returns (k: nat)
    requires Keyed(rules, l) && Indexed(l) && IsHead(l, h)
    ensures k < |l.log| && HeightAt(l, l.log[k], l.headers[h].height) && NoneAfter(l, l.headers[h].height, k)
    ensures IsHead(l.(head := LoadHead(l), known := {}), l.log[k])
  {
    var n := l.headers[h].height;
    assert LastAt(l, l.heights[n], n);
    k :| 0 <= k < |l.log| && l.log[k] == l.heights[n] && NoneAfter(l, n, k);
  }

  // ---------- One import ----------

  lemma AcceptAdds(rules: Rules, l: Ledger, block: Block, powHash: Hash)
    ensures var h, l1 := rules.hash(block.header), Accept(rules, l, block, powHash);
            && l1.headers == l.headers[h := block.header] && l1.bodies == l.bodies[h := block.body]
            && l1.meta == l.meta[h := Totalled(l, block, powHash).meta] && l1.known == l.known + {h}
            && l1.heights == l.heights[block.header.height := h] && l1.log == l.log + [h]
            && l1.locations == Located(rules, l.locations, h, block.header.height, block.body)
  {
    hide Located, Totalled;
    TotalledBlock(l, block, powHash);
  }

  lemma TotalledBlock(l: Ledger, block: Block, powHash: Hash)
    ensures Totalled(l, block, powHash).block == block
  {
  }

  lemma AcceptKeepsLogged(rules: Rules, l: Ledger, block: Block, powHash: Hash)
    requires Logged(l) && rules.hash(block.header) !in l.headers
    ensures Logged(Accept(rules, l, block, powHash))
  {
    hide Accept;
    var h, l1 := rules.hash(block.header), Accept(rules, l, block, powHash);
    AcceptAdds(rules, l, block, powHash);
    assert l1.log[|l.log|] == h;
    forall x | x in l.headers ensures x in l1.log {
      var i :| 0 <= i < |l.log| && l.log[i] == x;
      assert l1.log[i] == x;
    }
  }

  lemma ValidBlockFollows(rules: Rules, block: Block, parent: Block, now: u64)
    requires ValidateBlock(rules, block, Some(parent), now) == None
    ensures parent.header.height + 1 == block.header.height && parent.header.timestamp <= block.header.timestamp
  {
  }

  lemma AcceptKeepsAncestry(rules: Rules, l: Ledger, g: Hash, block: Block, powHash: Hash, parent: Block, now: u64)
    requires Ancestry(l, g) && rules.hash(block.header) !in l.headers
    requires GetBlock(l, block.header.parentHash) == Some(parent)
    requires ValidateBlock(rules, block, Some(parent), now) == None
    ensures Ancestry(Accept(rules, l, block, powHash), g)
  {
    hide Accept, ValidateBlock, Linked;
    var h, l1 := rules.hash(block.header), Accept(rules, l, block, powHash);
    AcceptAdds(rules, l, block, powHash);
    ValidBlockFollows(rules, block, parent, now);
    AcceptLinks(rules, l, block, powHash, parent);
    forall x | x in l1.headers && x != g && x != h
      ensures Linked(l1, x, l1.headers[x].parentHash)
    {
      LinkedStays(l, l1, x, l.headers[x].parentHash);
    }
  }

  lemma AcceptLinks(rules: Rules, l: Ledger, block: Block, powHash: Hash, parent: Block)
    requires rules.hash(block.header) !in l.headers && GetBlock(l, block.header.parentHash) == Some(parent)
    requires parent.header.height + 1 == block.header.height && parent.header.timestamp <= block.header.timestamp
    ensures Linked(Accept(rules, l, block, powHash), rules.hash(block.header), block.header.parentHash)
  {
    hide Accept;
    AcceptAdds(rules, l, block, powHash);
  }

  lemma LinkedStays(l: Ledger, l1: Ledger, h: Hash, p: Hash)
    requires Linked(l, h, p)
    requires forall x :: x in l.headers ==>
                           x in l1.headers && l1.headers[x] == l.headers[x] &&
                           TotalDifficulty(l1, x) == TotalDifficulty(l, x)
    ensures Linked(l1, h, p)
  {
  }

  // The head moves to the accepted block exactly if that has a larger total difficulty.
  lemma AcceptMovesHead(rules: Rules, l: Ledger, block: Block, powHash: Hash, top: Hash)
    requires IsHead(l, top) && top != rules.hash(block.header)
    ensures var l1, td := Accept(rules, l, block, powHash), Totalled(l, block, powHash).meta.totalDifficulty;
            IsHead(l1, if td > TotalDifficulty(l, top) then rules.hash(block.header) else top)
  {
  }

  lemma AcceptKeepsBestHead(rules: Rules, l: Ledger, s: nat, block: Block, powHash: Hash)
    requires Keyed(rules, l) && Logged(l) && s <= |l.log| && BestHead(l, s) && rules.hash(block.header) !in l.headers
    ensures BestHead(Accept(rules, l, block, powHash), s)
  {
    hide IsHead, Accept, Totalled;
    var l1, td := Accept(rules, l, block, powHash), Totalled(l, block, powHash).meta.totalDifficulty;
    var i: nat :| FirstMax(Totals(l), i, s) && IsHead(l, l.log[i]);
    assert l.log[i] in l.headers;
    AcceptMovesHead(rules, l, block, powHash, l.log[i]);
    AcceptAdds(rules, l, block, powHash);
    AcceptAppendsTotal(rules, l, block, powHash);
    FirstMaxGrows(Totals(l), i, s, td);
    assert FirstMax(Totals(l1), if td > Totals(l)[i] then |l.log| else i, s);
  }

  lemma FirstMaxGrows(xs: seq<nat>, i: nat, s: nat, x: nat)
    requires FirstMax(xs, i, s) && s <= |xs|
    ensures FirstMax(xs + [x], if x > xs[i] then |xs| else i, s)
  {
  }

  lemma AcceptAppendsTotal(rules: Rules, l: Ledger, block: Block, powHash: Hash)
    requires Logged(l) && rules.hash(block.header) !in l.headers
    ensures Totals(Accept(rules, l, block, powHash)) == Totals(l) + [Totalled(l, block, powHash).meta.totalDifficulty]
  {
    hide Accept, Totalled;
    AcceptAdds(rules, l, block, powHash);
  }

  lemma AcceptKeepsIndexed(rules: Rules, l: Ledger, block: Block, powHash: Hash)
    requires Logged(l) && Indexed(l) && rules.hash(block.header) !in l.headers
    ensures Indexed(Accept(rules, l, block, powHash))
  {
    hide Accept, LastAt, Logged;
    var h, l1 := rules.hash(block.header), Accept(rules, l, block, powHash);
    AcceptAdds(rules, l, block, powHash);
    forall n | n in l1.heights ensures LastAt(l1, l1.heights[n], n) {
      AcceptKeepsLastAt(rules, l, block, powHash, n, l1.heights[n]);
    }
  }

  // The accepted block is the last of its height; at other heights nothing changes.
  lemma AcceptKeepsLastAt(rules: Rules, l: Ledger, block: Block, powHash: Hash, n: nat, k: Hash)
    requires Logged(l) && rules.hash(block.header) !in l.headers
    requires if n == block.header.height then k == rules.hash(block.header) else LastAt(l, k, n)
    ensures LastAt(Accept(rules, l, block, powHash), k, n)
  {
    hide Accept;
    var l1 := Accept(rules, l, block, powHash);
    AcceptAdds(rules, l, block, powHash);
    if n == block.header.height {
      assert l1.log[|l.log|] == k && NoneAfter(l1, n, |l.log|);
    } else {
      var i :| 0 <= i < |l.log| && l.log[i] == k && HeightAt(l, k, n) && NoneAfter(l, n, i);
      assert l1.log[i] == k && NoneAfter(l1, n, i);
    }
  }

  lemma {:induction false} LocatedAt(rules: Rules, locations: map<Hash, Location>, h: Hash, height: u64,
                                     body: seq<seq<u8>>, t: Hash) returns (i: nat)
    ensures var after := Located(rules, locations, h, height, body);
            if LastIn(rules, body, t, i) then t in after && after[t] == Location(h, height, i % 0x1_0000_0000)
            else (t in after <==> t in locations) && (t in locations ==> after[t] == locations[t]) &&
                 !Contains(rules, body, t)
    decreases |body|
  {
    var n := |body|;
    if n == 0 {
      i := 0;
    } else if rules.txHash(body[n - 1]) == t {
      i := n - 1;
    } else {
      i := LocatedAt(rules, locations, h, height, body[..n - 1], t);
    }
  }

  lemma AcceptKeepsFindable(rules: Rules, l: Ledger, block: Block, powHash: Hash)
    requires Keyed(rules, l) && Logged(l) && Findable(rules, l) && rules.hash(block.header) !in l.headers
    ensures Findable(rules, Accept(rules, l, block, powHash))
  {
    hide Accept, Located, LeadsTo, Logged, Carries;
    var h, l1 := rules.hash(block.header), Accept(rules, l, block, powHash);
    AcceptAdds(rules, l, block, powHash);
    forall t | t in l1.locations ensures LeadsTo(rules, l1, t, l1.locations[t]) {
      AcceptKeepsLocation(rules, l, block, powHash, t);
    }
    forall k, t | Carries(rules, l1, k, t) ensures t in l1.locations {
      AcceptKeepsLocation(rules, l, block, powHash, t);
      AcceptKeepsCarries(rules, l, block, powHash, k, t);
    }
  }

  lemma AcceptKeepsCarries(rules: Rules, l: Ledger, block: Block, powHash: Hash, k: Hash, t: Hash)
    requires rules.hash(block.header) !in l.bodies
    ensures Carries(rules, Accept(rules, l, block, powHash), k, t) <==>
            if k == rules.hash(block.header) then Contains(rules, block.body, t) else Carries(rules, l, k, t)
  {
    hide Accept, Contains;
    AcceptAdds(rules, l, block, powHash);
  }

  // The accepted block takes over the locations of its transactions; the others stay.
  lemma AcceptKeepsLocation(rules: Rules, l: Ledger, block: Block, powHash: Hash, t: Hash)
    requires Keyed(rules, l) && Logged(l) && Findable(rules, l) && rules.hash(block.header) !in l.headers
    ensures var l1 := Accept(rules, l, block, powHash);
            && (t in l1.locations ==> LeadsTo(rules, l1, t, l1.locations[t]))
            && (t in l.locations || Contains(rules, block.body, t) ==> t in l1.locations)
  {
    hide Accept, Located, LeadsTo, Logged;
    AcceptAdds(rules, l, block, powHash);
    var h := rules.hash(block.header);
    var i := LocatedAt(rules, l.locations, h, block.header.height, block.body, t);
    if LastIn(rules, block.body, t, i) {
      LocationTaken(rules, l, block, powHash, t, i);
    } else if t in l.locations {
      LocationStays(rules, l, block, powHash, t, l.locations[t]);
    }
  }

  lemma LocationTaken(rules: Rules, l: Ledger, block: Block, powHash: Hash, t: Hash, i: nat)
    requires LastIn(rules, block.body, t, i)
    ensures LeadsTo(rules, Accept(rules, l, block, powHash), t,
                    Location(rules.hash(block.header), block.header.height, i % 0x1_0000_0000))
  {
    hide Accept, Located;
    var l1 := Accept(rules, l, block, powHash);
    AcceptAdds(rules, l, block, powHash);
    assert l1.log[|l.log|] == rules.hash(block.header);
  }

  lemma LocationStays(rules: Rules, l: Ledger, block: Block, powHash: Hash, t: Hash, at: Location)
    requires Keyed(rules, l) && Logged(l) && LeadsTo(rules, l, t, at) && rules.hash(block.header) !in l.headers
    requires !Contains(rules, block.body, t)
    ensures LeadsTo(rules, Accept(rules, l, block, powHash), t, at)
  {
    hide Accept, Located, Carries, Contains, LastIn;
    var l1 := Accept(rules, l, block, powHash);
    AcceptAdds(rules, l, block, powHash);
    var h := rules.hash(block.header);
    AcceptKeepsCarries(rules, l, block, powHash, at.block, t);
    assert at.block != h;
    var j :| 0 <= j < |l.log| && l.log[j] == at.block &&
             forall m :: j < m < |l.log| ==> !Carries(rules, l, l.log[m], t);
    assert l1.log[j] == at.block;
    forall m | j < m < |l1.log| ensures !Carries(rules, l1, l1.log[m], t) {
      AcceptKeepsCarries(rules, l, block, powHash, l1.log[m], t);
      assert m < |l.log| ==> l1.log[m] == l.log[m] && l.log[m] != h;
    }
    assert LastCarrier(rules, l1, at.block, t);
    assert l1.bodies[at.block] == l.bodies[at.block];
  }

  lemma AcceptKeepsKnows(rules: Rules, l: Ledger, g: Hash, s: nat, block: Block, powHash: Hash)
    requires Knows(l, g, s) && rules.hash(block.header) != g
    ensures Knows(Accept(rules, l, block, powHash), g, s)
  {
    hide Accept;
    AcceptAdds(rules, l, block, powHash);
    assert Accept(rules, l, block, powHash).log[s..] == l.log[s..] + [rules.hash(block.header)];
  }

  lemma AcceptKeepsSound(rules: Rules, l: Ledger, g: Hash, s: nat, block: Block, powHash: Hash, parent: Block, now: u64)
    requires Sound(rules, l, g, s) && rules.hash(block.header) !in l.headers
    requires GetBlock(l, block.header.parentHash) == Some(parent)
    requires ValidateBlock(rules, block, Some(parent), now) == None
    ensures Sound(rules, Accept(rules, l, block, powHash), g, s)
  {
    hide Logged, BestHead, Indexed, Findable, ValidateBlock, Accept;
    AcceptAdds(rules, l, block, powHash);
    AcceptKeepsFindable(rules, l, block, powHash);
    AcceptKeepsLogged(rules, l, block, powHash);
    AcceptKeepsBestHead(rules, l, s, block, powHash);
    AcceptKeepsAncestry(rules, l, g, block, powHash, parent, now);
    AcceptKeepsIndexed(rules, l, block, powHash);
    AcceptKeepsKnows(rules, l, g, s, block, powHash);
  }

  lemma ImportKeepsInv(rules: Rules, st: State, g: Hash, s: nat, but: set<Hash>,
                       block: Block, powHash: Hash, clock: nat -> u64, k: nat)
    requires Inv(rules, st, g, s, but)
    ensures Inv(rules, Import(rules, st, block, powHash, clock, k).0, g, s, but)
    decreases |st.pending|, 1
  {
    hide Import, Accept, ValidateBlock, MeetsTarget, Logged, Ancestry, BestHead, Indexed, Findable, Knows;
    ImportCases(rules, st, block, powHash, clock, k);
    var h, l := rules.hash(block.header), st.ledger;
    if !Has(l, h) && GetBlock(l, block.header.parentHash).Some? {
      var parent := GetBlock(l, block.header.parentHash).value;
      if ValidateBlock(rules, block, Some(parent), clock(k)) == None && MeetsTarget(rules, block.header, powHash) {
        AcceptKeepsSound(rules, l, g, s, block, powHash, parent, clock(k));
        AcceptAdds(rules, l, block, powHash);
        PendingKeepsInv(rules, st.(ledger := Accept(rules, l, block, powHash)), g, s, but, h, clock, k + 1);
      }
    }
  }

  lemma PendingKeepsInv(rules: Rules, st: State, g: Hash, s: nat, but: set<Hash>, h: Hash, clock: nat -> u64, k: nat)
    requires Sound(rules, st.ledger, g, s) && Waiting(st, but + {h})
    ensures Inv(rules, ProcessPending(rules, st, h, clock, k).0, g, s, but)
    decreases |st.pending|, 0
  {
    hide Import, Sound, MeetsTarget;
    if h in st.pending {
      var block, rest := st.pending[h], st.pending - {h};
      assert rest.Keys == st.pending.Keys - {h};
      if MeetsTarget(rules, block.header, rules.pow(block.header)) {
        ImportKeepsInv(rules, st.(pending := rest), g, s, but, block, rules.pow(block.header), clock, k);
      }
    }
  }

  // ---------- Runs ----------

  datatype Event =
    | Deliver(block: Block, powHash: Hash, clock: nat -> u64)
    | InitAgain(difficulty: u128, other: seq<u8>)
    | Reopen

  function After(rules: Rules, st: State, e: Event): State {
    match e
    case Deliver(block, powHash, clock) => Import(rules, st, block, powHash, clock, 0).0
    case InitAgain(difficulty, other) => InitGenesis(rules, st, difficulty, other).0
    case Reopen => Reopened(st)
  }

  function Run(rules: Rules, st: State, events: seq<Event>): State
    decreases |events|
  {
    if events == [] then st else Run(rules, After(rules, st, events[0]), events[1..])
  }

  // How many blocks were stored when the chain was last opened.
  function Opening(rules: Rules, st: State, s: nat, events: seq<Event>): nat
    decreases |events|
  {
    if events == [] then s
    else Opening(rules, After(rules, st, events[0]), if events[0].Reopen? then |st.ledger.log| else s, events[1..])
  }

  lemma {:induction false} NeverReopened(rules: Rules, st: State, s: nat, events: seq<Event>)
    requires Reopen !in events
    ensures Opening(rules, st, s, events) == s
    decreases |events|
  {
    if events != [] {
      NeverReopened(rules, After(rules, st, events[0]), s, events[1..]);
    }
  }

  lemma EventKeepsInv(rules: Rules, st: State, g: Hash, s: nat, but: set<Hash>, e: Event)
    requires Inv(rules, st, g, s, but)
    ensures Inv(rules, After(rules, st, e), g, if e.Reopen? then |st.ledger.log| else s, if e.Reopen? then {} else but)
  {
    hide Import, Reopened, Keyed, Logged, BestHead, Knows, Findable, LastAt;
    match e
    case Deliver(block, powHash, clock) => ImportKeepsInv(rules, st, g, s, but, block, powHash, clock, 0);
    case InitAgain(_, _) => assert 0 in st.ledger.heights;
    case Reopen => ReopenKeepsInv(rules, st, g, s);
  }

  lemma {:induction false} RunKeepsInv(rules: Rules, st: State, g: Hash, s: nat, but: set<Hash>, events: seq<Event>)
    requires Inv(rules, st, g, s, but)
    ensures Inv(rules, Run(rules, st, events), g, Opening(rules, st, s, events), if Reopen in events then {} else but)
    decreases |events|
  {
    hide Inv, After;
    if events != [] {
      var e, rest := events[0], events[1..];
      assert Reopen in events <==> e.Reopen? || Reopen in rest;
      EventKeepsInv(rules, st, g, s, but, e);
      RunKeepsInv(rules, After(rules, st, e), g, if e.Reopen? then |st.ledger.log| else s,
                  if e.Reopen? then {} else but, rest);
    }
  }

  // The state after any events that follow the initialisation of an empty chain.
  function Reached(rules: Rules, difficulty: u128, other: seq<u8>, events: seq<Event>): State {
    Run(rules, InitGenesis(rules, EMPTY, difficulty, other).0, events)
  }

  lemma EveryRunKeepsInv(rules: Rules, difficulty: u128, other: seq<u8>, events: seq<Event>)
    ensures var st := InitGenesis(rules, EMPTY, difficulty, other).0;
            Inv(rules, Run(rules, st, events), rules.hash(Genesis(difficulty, other).header),
                Opening(rules, st, 0, events), {})
  {
    hide Inv;
    GenesisEstablishesInv(rules, EMPTY, difficulty, other);
    assert EMPTY.pending.Keys * {rules.hash(Genesis(difficulty, other).header)} == {};
    var g := rules.hash(Genesis(difficulty, other).header);
    RunKeepsInv(rules, InitGenesis(rules, EMPTY, difficulty, other).0, g, 0, {}, events);
  }

  // Without a restart the head is the first of largest total difficulty among all stored blocks.
  lemma HeadOfOneRun(rules: Rules, difficulty: u128, other: seq<u8>, events: seq<Event>)
    requires Reopen !in events
    ensures var l := Reached(rules, difficulty, other, events).ledger;
            exists i: nat :: FirstMax(Totals(l), i, 0) && IsHead(l, l.log[i])
  {
    hide Run, Keyed, Logged, Ancestry, Indexed, Findable, Knows, FirstMax, IsHead;
    EveryRunKeepsInv(rules, difficulty, other, events);
    NeverReopened(rules, InitGenesis(rules, EMPTY, difficulty, other).0, 0, events);
  }

  // ---------- Deliveries before genesis ----------

  // Nothing is stored, or the chain is sound; until it is reopened, an orphan may wait for genesis.
  ghost predicate Alive(rules: Rules, st: State, s: nat) {
    || (Unborn(st) && s == 0)
    || (st.ledger.log != [] && Inv(rules, st, st.ledger.log[0], s, if s == 0 then {st.ledger.log[0]} else {}))
  }

  lemma EventKeepsAlive(rules: Rules, st: State, s: nat, e: Event)
    requires Alive(rules, st, s)
    ensures Alive(rules, After(rules, st, e), if e.Reopen? then |st.ledger.log| else s)
  {
    hide Keyed, Logged, Ancestry, BestHead, Indexed, Findable, Knows, Import;
    if Unborn(st) {
      match e
      case Deliver(block, powHash, clock) => ImportCases(rules, st, block, powHash, clock, 0);
      case InitAgain(difficulty, other) => GenesisEstablishesInv(rules, st, difficulty, other);
      case Reopen =>
    } else {
      var g := st.ledger.log[0];
      EventKeepsInv(rules, st, g, s, if s == 0 then {g} else {}, e);
    }
  }

  // Whatever is delivered before genesis, and however often the chain is reopened.
  lemma {:induction false} EveryRunKeepsAlive(rules: Rules, st: State, s: nat, events: seq<Event>)
    requires Alive(rules, st, s)
    ensures Alive(rules, Run(rules, st, events), Opening(rules, st, s, events))
    decreases |events|
  {
    hide Alive, After;
    if events != [] {
      EventKeepsAlive(rules, st, s, events[0]);
      var s1 := if events[0].Reopen? then |st.ledger.log| else s;
      EveryRunKeepsAlive(rules, After(rules, st, events[0]), s1, events[1..]);
    }
  }

  // ---------- Walking to genesis ----------

  // The n-th ancestor.
  function Walk(headers: map<Hash, Header>, h: Hash, n: nat): Option<Hash>
    decreases n
  {
    if h !in headers then None
    else if n == 0 then Some(h)
    else Walk(headers, headers[h].parentHash, n - 1)
  }

  // The difficulties of a block and its n ancestors.
  function PathSum(headers: map<Hash, Header>, h: Hash, n: nat): nat
    decreases n
  {
    if h !in headers then 0
    else headers[h].difficulty + (if n == 0 then 0 else PathSum(headers, headers[h].parentHash, n - 1))
  }

  // The work behind a block: the difficulties on its path to height zero.
  function Work(l: Ledger, h: Hash): nat {
    if h in l.headers then PathSum(l.headers, h, l.headers[h].height) else 0
  }

  // From every stored block, genesis is exactly `height` parents away and no nearer.
  lemma {:induction false} WalkReachesGenesis(l: Ledger, g: Hash, h: Hash, n: nat)
    requires Ancestry(l, g) && h in l.headers && n <= l.headers[h].height
    ensures var a := Walk(l.headers, h, n);
            a.Some? && HeightAt(l, a.value, l.headers[h].height - n) && (a.value == g <==> n == l.headers[h].height)
    decreases n
  {
    if n > 0 {
      assert Linked(l, h, l.headers[h].parentHash);
      WalkReachesGenesis(l, g, l.headers[h].parentHash, n - 1);
    } else if h != g {
      assert Linked(l, h, l.headers[h].parentHash);
    }
  }

  // ---------- The height index and a restart ----------

  predicate OnePerHeight(l: Ledger) {
    forall h, k :: h in l.headers && k in l.headers && l.headers[h].height == l.headers[k].height ==> h == k
  }

  // At any height up to a stored block's own, the index leads to the block's ancestor if and only if no other
  // block of that height was stored after the ancestor.
  lemma IndexFollowsWalkIff(l: Ledger, g: Hash, h: Hash, n: nat)
    requires Ancestry(l, g) && Indexed(l) && h in l.headers && n <= l.headers[h].height
    ensures n in l.heights
    ensures var a := Walk(l.headers, h, l.headers[h].height - n);
            a.Some? && HeightAt(l, a.value, n) && (a.value == l.heights[n] <==> LastAt(l, a.value, n))
  {
    hide Walk, Ancestry, LastAt;
    WalkReachesGenesis(l, g, h, l.headers[h].height - n);
    var a := Walk(l.headers, h, l.headers[h].height - n).value;
    assert LastAt(l, l.heights[n], n);
    if LastAt(l, a, n) {
      LastIsUnique(l, a, l.heights[n], n);
    }
  }

  lemma LastIsUnique(l: Ledger, h: Hash, k: Hash, n: nat)
    requires LastAt(l, h, n) && LastAt(l, k, n)
    ensures h == k
  {
    var i :| 0 <= i < |l.log| && l.log[i] == h && NoneAfter(l, n, i);
    var j :| 0 <= j < |l.log| && l.log[j] == k && NoneAfter(l, n, j);
    assert HeightAt(l, l.log[i], n) && HeightAt(l, l.log[j], n);
  }

  // A transaction is found in a stored block that carries it if and only if no block stored later carries it too.
  lemma LookupFindsBlockIff(rules: Rules, l: Ledger, h: Hash, t: Hash)
    requires Findable(rules, l) && Carries(rules, l, h, t)
    ensures t in l.locations && (l.locations[t].block == h <==> LastCarrier(rules, l, h, t))
  {
    hide Carries, LastIn;
    var k := l.locations[t].block;
    assert LastCarrier(rules, l, k, t);
    if LastCarrier(rules, l, h, t) {
      var i :| 0 <= i < |l.log| && l.log[i] == h && forall m :: i < m < |l.log| ==> !Carries(rules, l, l.log[m], t);
      var j :| 0 <= j < |l.log| && l.log[j] == k && forall m :: j < m < |l.log| ==> !Carries(rules, l, l.log[m], t);
      assert Carries(rules, l, l.log[i], t) && Carries(rules, l, l.log[j], t);
    }
  }

  // At every height the index leads to the ancestor of every stored block.
  ghost predicate IndexIsPath(l: Ledger) {
    forall h, n: nat :: h in l.headers && n <= l.headers[h].height ==>
      n in l.heights && Walk(l.headers, h, l.headers[h].height - n) == Some(l.heights[n])
  }

  // So the index lists the ancestors of all stored blocks, the head among them, if and only if there is no fork.
  lemma IndexFollowsWalk(l: Ledger, g: Hash)
    requires Ancestry(l, g) && Indexed(l)
    ensures IndexIsPath(l) <==> OnePerHeight(l)
  {
    hide Ancestry, LastAt;
    if OnePerHeight(l) {
      forall h, n: nat | h in l.headers && n <= l.headers[h].height
        ensures n in l.heights && Walk(l.headers, h, l.headers[h].height - n) == Some(l.heights[n])
      {
        IndexFollowsWalkIff(l, g, h, n);
        LastHasHeight(l, l.heights[n], n);
      }
    }
    if IndexIsPath(l) {
      forall h, k | h in l.headers && k in l.headers && l.headers[h].height == l.headers[k].height ensures h == k {
        assert Walk(l.headers, h, 0) == Some(h) && Walk(l.headers, k, 0) == Some(k);
      }
    }
  }

  lemma LastHasHeight(l: Ledger, h: Hash, n: nat)
    requires LastAt(l, h, n)
    ensures HeightAt(l, h, n)
  {
  }

  // A restart finds the old head if and only if no block of the head's height was stored after it.
  lemma RestartKeepsHeadIff(rules: Rules, l: Ledger, i: nat)
    requires Keyed(rules, l) && Logged(l) && Indexed(l) && i < |l.log| && IsHead(l, l.log[i])
    ensures LoadHead(l) == l.head <==> NoneAfter(l, l.headers[l.log[i]].height, i)
  {
    var n := l.headers[l.log[i]].height;
    var k := LoadsLastAt(rules, l, l.log[i]);
    assert rules.hash(l.headers[l.log[k]]) == l.log[k] && rules.hash(l.headers[l.log[i]]) == l.log[i];
    if LoadHead(l) == l.head {
      assert l.log[k] == l.log[i];
    } else {
      assert k > i || HeightAt(l, l.log[i], n);
    }
  }

  // The head was stored as the i-th block, and none of its height after it.
  predicate HeadNotOvertaken(l: Ledger, i: nat) {
    LoggedHead(l, i) && NoneAfter(l, l.headers[l.log[i]].height, i)
  }

  // So after every run from genesis, earlier restarts included, another restart keeps the head, and the index leads
  // to the ancestors of every stored block, exactly as far as they were not overtaken.
  lemma EveryRunRestartsIff(rules: Rules, difficulty: u128, other: seq<u8>, events: seq<Event>)
    ensures var st := Reached(rules, difficulty, other, events);
            Reopened(st).ledger.head == st.ledger.head <==> exists i: nat :: HeadNotOvertaken(st.ledger, i)
  {
    hide Keyed, Logged, Ancestry, Indexed, Findable, Knows, Totals, LoadHead, NoneAfter, Run;
    var l := Reached(rules, difficulty, other, events).ledger;
    EveryRunKeepsInv(rules, difficulty, other, events);
    assert IsLoggedHead(l) by {
      var s := Opening(rules, InitGenesis(rules, EMPTY, difficulty, other).0, 0, events);
      var i: nat :| FirstMax(Totals(l), i, s) && IsHead(l, l.log[i]);
      assert LoggedHead(l, i);
    }
    var i: nat :| LoggedHead(l, i);
    RestartKeepsHeadIff(rules, l, i);
    assert HeadNotOvertaken(l, i) <==> LoadHead(l) == l.head;
    if k: nat :| HeadNotOvertaken(l, k) {
      RestartKeepsHeadIff(rules, l, k);
    }
  }

  lemma EveryRunIndexesIff(rules: Rules, difficulty: u128, other: seq<u8>, events: seq<Event>)
    ensures var l := Reached(rules, difficulty, other, events).ledger;
            forall h, n: nat :: h in l.headers && n <= l.headers[h].height ==>
              var a := Walk(l.headers, h, l.headers[h].height - n);
              n in l.heights && a.Some? && (a.value == l.heights[n] <==> LastAt(l, a.value, n))
  {
    hide Keyed, Logged, Ancestry, Indexed, Findable, BestHead, Knows, LastAt, Walk, Run;
    var l := Reached(rules, difficulty, other, events).ledger;
    EveryRunKeepsInv(rules, difficulty, other, events);
    forall h, n: nat | h in l.headers && n <= l.headers[h].height
      ensures n in l.heights
      ensures var a := Walk(l.headers, h, l.headers[h].height - n);
              a.Some? && (a.value == l.heights[n] <==> LastAt(l, a.value, n))
    {
      IndexFollowsWalkIff(l, rules.hash(Genesis(difficulty, other).header), h, n);
    }
  }

  // After every run, likewise, for every stored block and every transaction of it.
  lemma EveryRunFindsIff(rules: Rules, difficulty: u128, other: seq<u8>, events: seq<Event>)
    ensures var l := Reached(rules, difficulty, other, events).ledger;
            forall h, t :: Carries(rules, l, h, t) ==>
              t in l.locations && (l.locations[t].block == h <==> LastCarrier(rules, l, h, t))
  {
    hide Keyed, Logged, Ancestry, Indexed, Findable, BestHead, Knows, LastCarrier, Carries, Run;
    var l := Reached(rules, difficulty, other, events).ledger;
    EveryRunKeepsInv(rules, difficulty, other, events);
    forall h, t | Carries(rules, l, h, t)
      ensures t in l.locations && (l.locations[t].block == h <==> LastCarrier(rules, l, h, t))
    {
      LookupFindsBlockIff(rules, l, h, t);
    }
  }

  // It can leave the head: two blocks on top of genesis carry the same transaction, the first has more work and is
  // the head, and the transaction is found in the second.
  lemma LookupLeavesTheHead()
    ensures var clock := (k: nat) => 1704067200;
            var first, second := Block(FIRST.header, [[]]), Block(SECOND.header, [[]]);
            var l := Reached(FORK_RULES, 2, [], [Deliver(first, 0, clock), Deliver(second, 0, clock)]).ledger;
            && IsHead(l, 1) && Carries(FORK_RULES, l, 1, 0)
            && 0 in l.locations && l.locations[0].block == 2
  {
    var clock := (k: nat) => 1704067200;
    var first, second := Block(FIRST.header, [[]]), Block(SECOND.header, [[]]);
    var st0 := InitGenesis(FORK_RULES, EMPTY, 2, []).0;
    var l1 := Accept(FORK_RULES, st0.ledger, first, 0);
    AcceptedAlone(FORK_RULES, st0, first, 0, clock);
    AcceptedAlone(FORK_RULES, State(l1, map[]), second, 0, clock);
    RunOfTwo(FORK_RULES, st0, Deliver(first, 0, clock), Deliver(second, 0, clock));
    TwinsAccepted(first, second);
  }

  lemma TwinsAccepted(first: Block, second: Block)
    requires first == Block(FIRST.header, [[]]) && second == Block(SECOND.header, [[]])
    ensures var l1 := Accept(FORK_RULES, InitGenesis(FORK_RULES, EMPTY, 2, []).0.ledger, first, 0);
            var l := Accept(FORK_RULES, l1, second, 0);
            && IsHead(l, 1) && Carries(FORK_RULES, l, 1, 0)
            && 0 in l.locations && l.locations[0].block == 2
  {
    var l1 := Accept(FORK_RULES, InitGenesis(FORK_RULES, EMPTY, 2, []).0.ledger, first, 0);
    var l := Accept(FORK_RULES, l1, second, 0);
    assert FORK_RULES.txHash(l.bodies[1][0]) == 0;
    var i := LocatedAt(FORK_RULES, l1.locations, 2, 1, second.body, 0);
    assert FORK_RULES.txHash(second.body[0]) == 0;
  }

  // A restart can lose the head: of two blocks on top of genesis the first has more work and is the head, and a
  // restart makes the second the head, since it took over the index.
  const FORK_RULES: Rules := Rules(
    (h: Header) => h.gasUsed, (t: seq<u8>) => 0, (h: Header) => 0, (d: u128) => 0, (b: Block) => true)
  const FIRST: Block := Block(Header(1, 1704067200, 0, 5, 1, 2, 0, []), [])
  const SECOND: Block := Block(Header(1, 1704067200, 0, 3, 2, 2, 0, []), [])

  lemma RestartLosesTheHead()
    ensures var clock := (k: nat) => 1704067200;
            var st := Reached(FORK_RULES, 2, [], [Deliver(FIRST, 0, clock), Deliver(SECOND, 0, clock)]);
            && IsHead(st.ledger, 1) && Work(st.ledger, 1) == 7
            && IsHead(Reopened(st).ledger, 2) && Work(st.ledger, 2) == 5
  {
    var clock := (k: nat) => 1704067200;
    var st0 := InitGenesis(FORK_RULES, EMPTY, 2, []).0;
    var l1 := Accept(FORK_RULES, st0.ledger, FIRST, 0);
    AcceptedAlone(FORK_RULES, st0, FIRST, 0, clock);
    AcceptedAlone(FORK_RULES, State(l1, map[]), SECOND, 0, clock);
    RunOfTwo(FORK_RULES, st0, Deliver(FIRST, 0, clock), Deliver(SECOND, 0, clock));
    ForkAfterSecond();
  }

  lemma ForkAfterSecond()
    ensures var l1 := Accept(FORK_RULES, InitGenesis(FORK_RULES, EMPTY, 2, []).0.ledger, FIRST, 0);
            var l := Accept(FORK_RULES, l1, SECOND, 0);
            && IsHead(l, 1) && Work(l, 1) == 7
            && IsHead(Reopened(State(l, map[])).ledger, 2) && Work(l, 2) == 5
  {
    var l1 := Accept(FORK_RULES, InitGenesis(FORK_RULES, EMPTY, 2, []).0.ledger, FIRST, 0);
    var l := Accept(FORK_RULES, l1, SECOND, 0);
    assert Work(l, 1) == 5 + PathSum(l.headers, 0, 0) && Work(l, 2) == 3 + PathSum(l.headers, 0, 0);
  }

  // Importing a valid block whose parent is stored, while nothing waits.
  lemma AcceptedAlone(rules: Rules, st: State, block: Block, powHash: Hash, clock: nat -> u64)
    requires st.pending == map[] && !Has(st.ledger, rules.hash(block.header))
    requires GetBlock(st.ledger, block.header.parentHash).Some? && MeetsTarget(rules, block.header, powHash)
    requires ValidateBlock(rules, block, GetBlock(st.ledger, block.header.parentHash), clock(0)) == None
    ensures After(rules, st, Deliver(block, powHash, clock)) == State(Accept(rules, st.ledger, block, powHash), map[])
  {
    hide Accept, ValidateBlock;
    ImportCases(rules, st, block, powHash, clock, 0);
  }

  lemma RunOfTwo(rules: Rules, st: State, e1: Event, e2: Event)
    ensures Run(rules, st, [e1]) == After(rules, st, e1)
    ensures Run(rules, st, [e1, e2]) == After(rules, After(rules, st, e1), e2)
  {
    hide After;
    assert [e1][1..] == [] && [e1, e2][1..] == [e2] && [e2][1..] == [];
    assert Run(rules, After(rules, st, e1), [e2]) == Run(rules, After(rules, After(rules, st, e1), e2), []);
  }

  // Total difficulty is the work modulo 2^128.
  lemma {:induction false} TotalIsWorkModulo(l: Ledger, g: Hash, h: Hash)
    requires Ancestry(l, g) && h in l.headers
    ensures TotalDifficulty(l, h) == WrapU128(Work(l, h))
    decreases l.headers[h].height
  {
    hide TotalDifficulty, WrapU128;
    if h == g {
      assert WrapU128(l.headers[g].difficulty) == l.headers[g].difficulty;
    } else {
      var p := l.headers[h].parentHash;
      assert Linked(l, h, p);
      TotalIsWorkModulo(l, g, p);
      assert Work(l, h) == l.headers[h].difficulty + Work(l, p);
      WrapAdds(Work(l, p), l.headers[h].difficulty);
    }
  }

  lemma WrapAdds(a: nat, b: nat)
    ensures WrapU128(WrapU128(a) + b) == WrapU128(a + b)
  {
    SameRemainder(WrapU128(a) + b, a / U128);
  }

  lemma {:induction false} SameRemainder(x: nat, q: nat)
    ensures (q * U128 + x) % U128 == x % U128
  {
    if q > 0 {
      SameRemainder(x, q - 1);
      assert q * U128 + x == ((q - 1) * U128 + x) + U128;
    }
  }

  // The stored total is the true sum exactly if that sum fits 128 bits.
  lemma StoredTotalIsExactIff(l: Ledger, g: Hash, h: Hash)
    requires Ancestry(l, g) && h in l.headers
    ensures TotalDifficulty(l, h) == Work(l, h) <==> Work(l, h) < U128
  {
    hide Ancestry, Work, TotalDifficulty;
    TotalIsWorkModulo(l, g, h);
  }

  function Works(l: Ledger): (ws: seq<nat>)
    ensures |ws| == |l.log|
  {
    seq(|l.log|, i requires 0 <= i < |l.log| => Work(l, l.log[i]))
  }

  // Of the blocks stored since the chain was opened, none has more work than the head, and none stored before
  // the head has as much, as long as no sum outgrows 128 bits.
  lemma HeadHasMostWork(rules: Rules, l: Ledger, g: Hash, s: nat)
    requires Sound(rules, l, g, s)
    requires forall h :: h in l.headers ==> Work(l, h) < U128
    ensures exists i: nat :: FirstMax(Works(l), i, s) && IsHead(l, l.log[i])
  {
    hide Work, IsHead, Keyed, Ancestry, TotalDifficulty, FirstMax, Findable;
    forall j | 0 <= j < |l.log| ensures TotalDifficulty(l, l.log[j]) == Work(l, l.log[j]) {
      StoredTotalIsExactIff(l, g, l.log[j]);
    }
    assert Works(l) == Totals(l);
  }

  // Beyond 128 bits it need not be: a block on top of genesis with the largest difficulty has the most
  // work, and genesis stays the head.
  const HEAVY: Block := Block(Header(1, 1704067200, 0, U128 - 1, 1, 2, 0, []), [])

  lemma WrappedWorkLosesTheHead()
    ensures var l := Reached(FORK_RULES, 2, [], [Deliver(HEAVY, 0, (k: nat) => 1704067200)]).ledger;
            Work(l, 1) > Work(l, 0) && IsHead(l, 0)
  {
    var st0 := InitGenesis(FORK_RULES, EMPTY, 2, []).0;
    var e := Deliver(HEAVY, 0, (k: nat) => 1704067200);
    AcceptedAlone(FORK_RULES, st0, HEAVY, 0, e.clock);
    RunOfTwo(FORK_RULES, st0, e, e);
    HeavyIsAccepted();
  }

  lemma HeavyIsAccepted()
    ensures var l := Accept(FORK_RULES, InitGenesis(FORK_RULES, EMPTY, 2, []).0.ledger, HEAVY, 0);
            Work(l, 1) > Work(l, 0) && IsHead(l, 0)
  {
    var l := Accept(FORK_RULES, InitGenesis(FORK_RULES, EMPTY, 2, []).0.ledger, HEAVY, 0);
    assert Work(l, 1) == U128 - 1 + PathSum(l.headers, 0, 0);
  }
}
