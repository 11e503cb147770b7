/** Block import and fork choice: the validator of `validation.rs`, the block store of
    `storage/src/chain.rs`, and the chain of `consensus/src/chain.rs` with its pool of orphans.
    Hashes, proof of work and the clock are parameters. */
module Chain {
  import opened Ints
  import opened Wrappers
  import Accounts
  import AccountStore

  datatype Header = Header(
    height: u64, timestamp: u64, parentHash: Hash, difficulty: u128,
    gasUsed: u64, gasLimit: u64, extraDataSize: nat, other: seq<u8>)

  datatype Block = Block(header: Header, body: seq<seq<u8>>)

  datatype Meta = Meta(powHash: Hash, totalDifficulty: u128)

  datatype StoredBlock = StoredBlock(block: Block, meta: Meta)

  // Where a transaction is found.
  datatype Location = Location(block: Hash, height: u64, index: nat)

  datatype Error =
    | GenesisExists | InvalidParent | GenesisParentNotZero | BadHeight | BlockFromFuture | BlockTooOld
    | ZeroGasLimit | GasAboveLimit | ExtraDataTooLong | BadContent | InvalidProofOfWork

  // What this model does not compute: the hashes of headers and transactions, the proof-of-work hash, the target
  // of a difficulty, and the checks on a block's body (structure, size, transactions and their root).
  datatype Rules = Rules(
    hash: Header -> Hash, txHash: seq<u8> -> Hash, pow: Header -> Hash, target: u128 -> Hash, content: Block -> bool)

  // ---------- Validation ----------

  const MAX_FUTURE_TIMESTAMP: u64 := 900

  function ValidateHeader(rules: Rules, header: Header, parent: Option<Header>, now: u64): Option<Error> {
    if header.height == 0 then
      if parent.Some? then Some(InvalidParent)
      else if header.parentHash != 0 then Some(GenesisParentNotZero)
      else None
    else if parent.None? then Some(InvalidParent)
    else if header.height != WrapU64(parent.value.height + 1) then Some(BadHeight)
    else if header.parentHash != rules.hash(parent.value) then Some(InvalidParent)
    else if header.timestamp > WrapU64(now + MAX_FUTURE_TIMESTAMP) then Some(BlockFromFuture)
    else if header.timestamp < parent.value.timestamp then Some(BlockTooOld)
    else if header.gasLimit == 0 then Some(ZeroGasLimit)
    else if header.gasUsed > header.gasLimit then Some(GasAboveLimit)
    else if header.extraDataSize > 32 then Some(ExtraDataTooLong)
    else None
  }

  function ValidateBlock(rules: Rules, block: Block, parent: Option<Block>, now: u64): Option<Error> {
    var parentHeader := if parent.Some? then Some(parent.value.header) else None;
    match ValidateHeader(rules, block.header, parentHeader, now)
    case Some(e) => Some(e)
    case None => if rules.content(block) then None else Some(BadContent)
  }

  predicate MeetsTarget(rules: Rules, header: Header, powHash: Hash) {
    powHash <= rules.target(header.difficulty)
  }

  // ---------- States ----------

  /** What the chain stores and remembers of accepted blocks. `log` lists them in the order of storing. */
  datatype Ledger = Ledger(
    headers: map<Hash, Header>, bodies: map<Hash, seq<seq<u8>>>, meta: map<Hash, Meta>,
    heights: map<u64, Hash>, locations: map<Hash, Location>, latestHeight: Option<u64>,
    known: set<Hash>, head: Option<StoredBlock>, log: seq<Hash>)

  /** The ledger and the orphans, each under the hash of the parent it waits for. */
  datatype State = State(ledger: Ledger, pending: map<Hash, Block>)

  const EMPTY: State := State(Ledger(map[], map[], map[], map[], map[], None, {}, None, []), map[])

  predicate Has(l: Ledger, h: Hash) {
    h in l.known || h in l.headers
  }

  function GetBlock(l: Ledger, h: Hash): Option<Block> {
    if h in l.headers && h in l.bodies then Some(Block(l.headers[h], l.bodies[h])) else None
  }

  function TotalDifficulty(l: Ledger, h: Hash): u128 {
    if h in l.meta then l.meta[h].totalDifficulty else 0
  }

  function HeadDifficulty(l: Ledger): u128 {
    if l.head.Some? then l.head.value.meta.totalDifficulty else 0
  }

  function WrapU128(x: nat): (r: u128)
    ensures x < U128 ==> r == x
  {
    x % U128
  }

  // The locations after those of a block's transactions were written one by one; an index has 32 bits.
  function Located(rules: Rules, locations: map<Hash, Location>, h: Hash, height: u64, body: seq<seq<u8>>)
    : map<Hash, Location>
  {
    var n := |body|;
    if n == 0 then locations
    else
      Located(rules, locations, h, height, body[..n - 1])
        [rules.txHash(body[n - 1]) := Location(h, height, (n - 1) % 0x1_0000_0000)]
  }

  // One batch of writes.
  function Put(rules: Rules, l: Ledger, b: StoredBlock): Ledger {
    var h := rules.hash(b.block.header);
    l.(headers := l.headers[h := b.block.header], bodies := l.bodies[h := b.block.body],
       meta := l.meta[h := b.meta], heights := l.heights[b.block.header.height := h],
       locations := Located(rules, l.locations, h, b.block.header.height, b.block.body), log := l.log + [h])
  }

  function SetHead(l: Ledger, b: StoredBlock): Ledger {
    l.(latestHeight := Some(b.block.header.height), head := Some(b))
  }

  function Totalled(l: Ledger, block: Block, powHash: Hash): StoredBlock {
    StoredBlock(block, Meta(powHash, WrapU128(TotalDifficulty(l, block.header.parentHash) + block.header.difficulty)))
  }

  // A valid block is stored, becomes known, and becomes the head if its total difficulty is larger.
  function Accept(rules: Rules, l: Ledger, block: Block, powHash: Hash): Ledger {
    var stored := Totalled(l, block, powHash);
    var l1 := Put(rules, l, stored);
    var l2 := l1.(known := l1.known + {rules.hash(block.header)});
    if stored.meta.totalDifficulty > HeadDifficulty(l) then SetHead(l2, stored) else l2
  }

  // The outcome of importing a block; `clock` gives the clock's readings, `k` says how many came before.
  function Import(rules: Rules, st: State, block: Block, powHash: Hash, clock: nat -> u64, k: nat)
    : (r: (State, Option<Error>))
    decreases |st.pending|, 1
  {
    var h := rules.hash(block.header);
    if Has(st.ledger, h) then (st, None)
    else
      match GetBlock(st.ledger, block.header.parentHash)
      case None => (st.(pending := st.pending[block.header.parentHash := block]), None)
      case Some(parent) =>
        match ValidateBlock(rules, block, Some(parent), clock(k))
        case Some(e) => (st, Some(e))
        case None =>
          if !MeetsTarget(rules, block.header, powHash) then (st, Some(InvalidProofOfWork))
          else ProcessPending(rules, st.(ledger := Accept(rules, st.ledger, block, powHash)), h, clock, k + 1)
  }

  function ProcessPending(rules: Rules, st: State, h: Hash, clock: nat -> u64, k: nat): (r: (State, Option<Error>))
    decreases |st.pending|, 0
  {
    if h !in st.pending then (st, None)
    else
      var block := st.pending[h];
      var st1 := st.(pending := st.pending - {h});
      assert st1.pending.Keys == st.pending.Keys - {h};
      var powHash := rules.pow(block.header);
      if !MeetsTarget(rules, block.header, powHash) then (st1, Some(InvalidProofOfWork))
      else Import(rules, st1, block, powHash, clock, k)
  }

  // The first block; `other` holds the header fields that nothing here reads.
  function Genesis(difficulty: u128, other: seq<u8>): Block {
    Block(Header(0, 1704067200, 0, difficulty, 0, 30_000_000, 22, other), [])
  }

  function InitGenesis(rules: Rules, st: State, difficulty: u128, other: seq<u8>): (r: (State, Option<Error>)) {
    if 0 in st.ledger.heights then (st, Some(GenesisExists))
    else
      var genesis := Genesis(difficulty, other);
      var stored := StoredBlock(genesis, Meta(rules.hash(genesis.header), genesis.header.difficulty));
      (st.(ledger := SetHead(Put(rules, st.ledger, stored), stored)), None)
  }

  // The head that a restart finds in the database; without one the head stays unset.
  function LoadHead(l: Ledger): Option<StoredBlock> {
    if l.latestHeight.Some? && l.latestHeight.value in l.heights then
      var h := l.heights[l.latestHeight.value];
      if GetBlock(l, h).Some? && h in l.meta then Some(StoredBlock(GetBlock(l, h).value, l.meta[h])) else None
    else None
  }

  // A chain opened over what another one stored.
  function Reopened(st: State): State {
    State(st.ledger.(head := LoadHead(st.ledger), known := {}), map[])
  }

  // ---------- The chain object ----------

  class Blockchain {
    const rules: Rules
    var headers: map<Hash, Header>
    var bodies: map<Hash, seq<seq<u8>>>
    var meta: map<Hash, Meta>
    var heights: map<u64, Hash>
    var locations: map<Hash, Location>
    var latestHeight: Option<u64>
    var known: set<Hash>
    var pending: map<Hash, Block>
    var head: Option<StoredBlock>
    const state: AccountStore.AccountState
    ghost var log: seq<Hash>

    ghost function Stored(): Ledger
      reads this
    {
      Ledger(headers, bodies, meta, heights, locations, latestHeight, known, head, log)
    }

    ghost function View(): State
      reads this
    {
      State(Stored(), pending)
    }

    // A chain over an empty database.
    constructor (rules: Rules, sha3: Accounts.Code -> Hash)
      ensures View() == EMPTY && this.rules == rules
      ensures fresh(state) && state.Valid() && state.View() == Accounts.World(map[], map[], map[])
    {
      this.rules := rules;
      state := new AccountStore.AccountState(sha3);
      headers, bodies, meta, heights, locations, latestHeight := map[], map[], map[], map[], map[], None;
      known, pending, head, log := {}, map[], None, [];
    }

    // A chain over the database that another one leaves behind. The accounts were in memory only.
    constructor Restart(from: Blockchain)
      ensures View() == Reopened(old(from.View())) && rules == from.rules
      ensures fresh(state) && state.Valid() && state.View() == Accounts.World(map[], map[], map[])
    {
      rules := from.rules;
      state := new AccountStore.AccountState(from.state.sha3);
      headers, bodies, meta, heights := from.headers, from.bodies, from.meta, from.heights;
      locations, latestHeight := from.locations, from.latestHeight;
      known, pending, head, log := {}, map[], None, from.log;
      new;
      if latestHeight.Some? && latestHeight.value in heights {
        var h := heights[latestHeight.value];
        if h in headers && h in bodies && h in meta {
          head := Some(StoredBlock(Block(headers[h], bodies[h]), meta[h]));
        }
      }
    }

    method PutBlock(b: StoredBlock)
      modifies `headers, `bodies, `meta, `heights, `locations, `log
      ensures Stored() == Put(rules, old(Stored()), b)
    {
      var h := rules.hash(b.block.header);
      headers := headers[h := b.block.header];
      bodies := bodies[h := b.block.body];
      heights := heights[b.block.header.height := h];
      meta := meta[h := b.meta];
      var body := b.block.body;
      for i := 0 to |body|
        invariant headers == old(headers)[h := b.block.header] && bodies == old(bodies)[h := body]
        invariant heights == old(heights)[b.block.header.height := h] && meta == old(meta)[h := b.meta]
        invariant log == old(log)
        invariant locations == Located(rules, old(locations), h, b.block.header.height, body[..i])
      {
        assert body[..i + 1][..i] == body[..i];
        locations := locations[rules.txHash(body[i]) := Location(h, b.block.header.height, i % 0x1_0000_0000)];
      }
      assert body[..|body|] == body;
      log := log + [h];
    }

    method GenesisBlock(difficulty: u128, other: seq<u8>, allocations: seq<AccountStore.Allocation>)
      returns (error: Option<Error>)
      requires state.Valid()
      modifies this, state
      ensures (View(), error) == InitGenesis(rules, old(View()), difficulty, other)
      ensures state.Valid()
      ensures state.View() == if error.None? then AccountStore.AllocatedAll(state.sha3, old(state.View()), allocations)
                              else old(state.View())
    {
      if 0 in heights {
        return Some(GenesisExists);
      }
      state.Allocate(allocations);
      var genesis := Genesis(difficulty, other);
      var stored := StoredBlock(genesis, Meta(rules.hash(genesis.header), difficulty));
      PutBlock(stored);
      MakeHead(stored);
      return None;
    }

    method StoreValid(block: Block, powHash: Hash)
      modifies this
      ensures Stored() == Accept(rules, old(Stored()), block, powHash) && pending == old(pending)
    {
      hide Located;
      var parentHash := block.header.parentHash;
      var parentTd := if parentHash in meta then meta[parentHash].totalDifficulty else 0;
      var stored := StoredBlock(block, Meta(powHash, WrapU128(parentTd + block.header.difficulty)));
      PutBlock(stored);
      known := known + {rules.hash(block.header)};
      var current := if head.Some? then head.value.meta.totalDifficulty else 0;
      if stored.meta.totalDifficulty > current {
        MakeHead(stored);
      }
    }

    method MakeHead(stored: StoredBlock)
      modifies `latestHeight, `head
      ensures Stored() == SetHead(old(Stored()), stored)
    {
      latestHeight := Some(stored.block.header.height);
      head := Some(stored);
    }

    method ImportBlock(block: Block, powHash: Hash, clock: nat -> u64, k: nat) returns (error: Option<Error>)
      modifies this
      ensures (View(), error) == Import(rules, old(View()), block, powHash, clock, k)
      decreases |pending|, 1
    {
      hide Import, ProcessPending, Accept, ValidateBlock, MeetsTarget;
      ImportCases(rules, View(), block, powHash, clock, k);
      var h := rules.hash(block.header);
      var parentHash := block.header.parentHash;
      if h in known || h in headers {
        return None;
      }
      if parentHash !in headers || parentHash !in bodies {
        pending := pending[parentHash := block];
        return None;
      }
      var parent := Block(headers[parentHash], bodies[parentHash]);
      var invalid := ValidateBlock(rules, block, Some(parent), clock(k));
      if invalid.Some? {
        return invalid;
      }
      if !MeetsTarget(rules, block.header, powHash) {
        return Some(InvalidProofOfWork);
      }
      StoreValid(block, powHash);
      error := TakePending(h, clock, k + 1);
    }

    method TakePending(h: Hash, clock: nat -> u64, k: nat) returns (error: Option<Error>)
      modifies this
      ensures (View(), error) == ProcessPending(rules, old(View()), h, clock, k)
      decreases |pending|, 0
    {
      hide Import;
      if h !in pending {
        return None;
      }
      var block := pending[h];
      pending := pending - {h};
      assert pending.Keys == old(pending.Keys) - {h};
      var powHash := rules.pow(block.header);
      if !MeetsTarget(rules, block.header, powHash) {
        return Some(InvalidProofOfWork);
      }
      error := ImportBlock(block, powHash, clock, k);
    }
  }

  lemma ImportCases(rules: Rules, st: State, block: Block, powHash: Hash, clock: nat -> u64, k: nat)
    ensures Import(rules, st, block, powHash, clock, k) ==
            if Has(st.ledger, rules.hash(block.header)) then (st, None)
            else
              match GetBlock(st.ledger, block.header.parentHash)
              case None => (st.(pending := st.pending[block.header.parentHash := block]), None)
              case Some(parent) =>
                match ValidateBlock(rules, block, Some(parent), clock(k))
                case Some(e) => (st, Some(e))
                case None =>
                  if !MeetsTarget(rules, block.header, powHash) then (st, Some(InvalidProofOfWork))
                  else ProcessPending(rules, st.(ledger := Accept(rules, st.ledger, block, powHash)),
                                      rules.hash(block.header), clock, k + 1)
  {
  }
}
