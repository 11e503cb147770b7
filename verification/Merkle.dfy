/** The Merkle tree of `merkle.rs`: a flat bottom-up node array, proofs that walk it by offsets,
    and their verification, over any pair hash `hp`.

    Soundness is stated without assuming that `hp` is injective: a proof that is accepted for a wrong
    leaf exhibits a collision of `hp`. */
module Merkle {
  import opened Ints
  import opened Wrappers

  // ---------- Powers of two ----------

  // The depth of the smallest power of two that is at least n, searching from depth d.
  function DepthFrom(d: nat, n: nat): (r: nat)
    ensures Pow2(r) >= n && r >= d
    ensures forall k :: d <= k < r ==> Pow2(k) < n
    decreases n - Pow2(d)
  {
    if Pow2(d) >= n then d else DepthFrom(d + 1, n)
  }

  function Depth(n: nat): (r: nat)
    ensures Pow2(r) >= n
    ensures forall k :: 0 <= k < r ==> Pow2(k) < n
  {
    DepthFrom(0, n)
  }

  // `usize::next_power_of_two`.
  method NextPowerOfTwo(n: nat) returns (p: nat)
    ensures p == Pow2(Depth(n))
  {
    p := 1;
    ghost var d := 0;
    while p < n
      invariant p == Pow2(d) && DepthFrom(0, n) == DepthFrom(d, n)
      decreases n - p
    {
      p := p * 2;
      d := d + 1;
    }
  }

  // ---------- The tree as a recursive definition ----------

  function Zeros(zero: Hash, n: nat): (z: seq<Hash>)
    ensures |z| == n && forall i :: 0 <= i < n ==> z[i] == zero
  {
    seq(n, _ => zero)
  }

  // The leaves, padded with `zero` to a power of two.
  function Padded(zero: Hash, leaves: seq<Hash>): (p: seq<Hash>)
    ensures |p| == Pow2(Depth(|leaves|)) && leaves <= p
  {
    leaves + Zeros(zero, Pow2(Depth(|leaves|)) - |leaves|)
  }

  // The hash of a complete tree of depth d, defined by halving.
  function TreeHash(hp: (Hash, Hash) -> Hash, d: nat, leaves: seq<Hash>): Hash
    requires |leaves| == Pow2(d)
  {
    if d == 0 then leaves[0]
    else hp(TreeHash(hp, d - 1, leaves[..Pow2(d - 1)]), TreeHash(hp, d - 1, leaves[Pow2(d - 1)..]))
  }

  // One level up: neighbours hashed in pairs.
  function Up(hp: (Hash, Hash) -> Hash, level: seq<Hash>): (u: seq<Hash>)
    ensures |u| == |level| / 2
    ensures forall i :: 0 <= i < |u| ==> u[i] == hp(level[2 * i], level[2 * i + 1])
  {
    seq(|level| / 2, i requires 0 <= i < |level| / 2 => hp(level[2 * i], level[2 * i + 1]))
  }

  // All levels from `level` to the root, one after the other.
  function Flat(hp: (Hash, Hash) -> Hash, d: nat, level: seq<Hash>): (f: seq<Hash>)
    requires |level| == Pow2(d)
    ensures |f| == 2 * Pow2(d) - 1
    ensures level <= f
  {
    if d == 0 then level else level + Flat(hp, d - 1, Up(hp, level))
  }

  lemma UpOfHalves(hp: (Hash, Hash) -> Hash, level: seq<Hash>, half: nat)
    requires |level| == 2 * half && half % 2 == 0
    ensures Up(hp, level[..half]) == Up(hp, level)[..half / 2]
    ensures Up(hp, level[half..]) == Up(hp, level)[half / 2..]
  {
    var l, r, u := Up(hp, level[..half]), Up(hp, level[half..]), Up(hp, level);
    forall i | 0 <= i < half / 2
      ensures l[i] == u[i] && r[i] == u[half / 2 + i]
    {
      assert level[half..][2 * i] == level[2 * (half / 2 + i)];
      assert level[half..][2 * i + 1] == level[2 * (half / 2 + i) + 1];
    }
  }

  // Hashing pairwise first, or halving first, gives the same root.
  lemma {:induction false} TreeHashUp(hp: (Hash, Hash) -> Hash, d: nat, level: seq<Hash>)
    requires d > 0 && |level| == Pow2(d)
    ensures TreeHash(hp, d, level) == TreeHash(hp, d - 1, Up(hp, level))
  {
    var half := Pow2(d - 1);
    if d == 1 {
      assert half == 1;
    } else {
      var u := Up(hp, level);
      UpOfHalves(hp, level, half);
      TreeHashUp(hp, d - 1, level[..half]);
      TreeHashUp(hp, d - 1, level[half..]);
      assert half / 2 == Pow2(d - 2);
      assert TreeHash(hp, d - 1, u) == hp(TreeHash(hp, d - 2, u[..half / 2]), TreeHash(hp, d - 2, u[half / 2..]));
    }
  }

  // The flat array ends with the recursive root.
  lemma {:induction false} FlatEndsWithRoot(hp: (Hash, Hash) -> Hash, d: nat, level: seq<Hash>)
    requires |level| == Pow2(d)
    ensures Flat(hp, d, level)[2 * Pow2(d) - 2] == TreeHash(hp, d, level)
  {
    hide Up;
    if d > 0 {
      FlatEndsWithRoot(hp, d - 1, Up(hp, level));
      TreeHashUp(hp, d, level);
    }
  }

  // ---------- Proofs ----------

  datatype MerkleProof = MerkleProof(leafIndex: nat, leafHash: Hash, proofHashes: seq<Hash>, root: Hash)

  function Sibling(i: nat): (s: nat)
    ensures s / 2 == i / 2 && s != i
  {
    if i % 2 == 0 then i + 1 else i - 1
  }

  // The siblings met on the way from leaf i to the root.
  function AuthPath(hp: (Hash, Hash) -> Hash, d: nat, level: seq<Hash>, i: nat): (path: seq<Hash>)
    requires |level| == Pow2(d) && i < |level|
    ensures |path| == d
  {
    if d == 0 then [] else [level[Sibling(i)]] + AuthPath(hp, d - 1, Up(hp, level), i / 2)
  }

  function Fold(hp: (Hash, Hash) -> Hash, x: Hash, i: nat, path: seq<Hash>): Hash
    decreases |path|
  {
    if path == [] then x
    else Fold(hp, if i % 2 == 0 then hp(x, path[0]) else hp(path[0], x), i / 2, path[1..])
  }

  predicate Accepts(hp: (Hash, Hash) -> Hash, proof: MerkleProof) {
    Fold(hp, proof.leafHash, proof.leafIndex, proof.proofHashes) == proof.root
  }

  // The pairs that are hashed to get from a level to the next, to the root, and in a fold.
  function LevelPairs(level: seq<Hash>): set<(Hash, Hash)> {
    set i | 0 <= i < |level| / 2 :: (level[2 * i], level[2 * i + 1])
  }

  function TreePairs(hp: (Hash, Hash) -> Hash, d: nat, level: seq<Hash>): set<(Hash, Hash)> {
    if d == 0 then {} else LevelPairs(level) + TreePairs(hp, d - 1, Up(hp, level))
  }

  function FoldPairs(hp: (Hash, Hash) -> Hash, x: Hash, i: nat, path: seq<Hash>): set<(Hash, Hash)>
    decreases |path|
  {
    if path == [] then {}
    else
      var pair := if i % 2 == 0 then (x, path[0]) else (path[0], x);
      {pair} + FoldPairs(hp, hp(pair.0, pair.1), i / 2, path[1..])
  }

  // Two different ones of these pairs have the same hash.
  predicate Collides(hp: (Hash, Hash) -> Hash, pairs: set<(Hash, Hash)>) {
    exists p, q :: p in pairs && q in pairs && p != q && hp(p.0, p.1) == hp(q.0, q.1)
  }

  lemma MoreCollide(hp: (Hash, Hash) -> Hash, some: set<(Hash, Hash)>, all: set<(Hash, Hash)>)
    requires Collides(hp, some) && some <= all
    ensures Collides(hp, all)
  {
  }

  lemma Injective(hp: (Hash, Hash) -> Hash, pairs: set<(Hash, Hash)>, p: (Hash, Hash), q: (Hash, Hash))
    requires !Collides(hp, pairs) && p in pairs && q in pairs && hp(p.0, p.1) == hp(q.0, q.1)
    ensures p == q
  {
  }

  lemma PairIn(level: seq<Hash>, i: nat)
    requires i < |level| && |level| % 2 == 0
    ensures Sibling(i) < |level|
    ensures (if i % 2 == 0 then (level[i], level[Sibling(i)]) else (level[Sibling(i)], level[i])) in LevelPairs(level)
  {
    var j := i / 2;
    assert (level[2 * j], level[2 * j + 1]) in LevelPairs(level);
  }

  lemma SiblingsMeet(hp: (Hash, Hash) -> Hash, level: seq<Hash>, i: nat)
    requires i < |level| && |level| % 2 == 0
    ensures Sibling(i) < |level|
    ensures Up(hp, level)[i / 2] ==
            if i % 2 == 0 then hp(level[i], level[Sibling(i)]) else hp(level[Sibling(i)], level[i])
  {
    var j := i / 2;
    assert Up(hp, level)[j] == hp(level[2 * j], level[2 * j + 1]);
  }

  // Completeness: the path of every leaf leads to the root.
  lemma {:induction false} PathLeadsToRoot(hp: (Hash, Hash) -> Hash, d: nat, level: seq<Hash>, i: nat)
    requires |level| == Pow2(d) && i < |level|
    ensures Fold(hp, level[i], i, AuthPath(hp, d, level, i)) == TreeHash(hp, d, level)
  {
    if d > 0 {
      var path := AuthPath(hp, d, level, i);
      SiblingsMeet(hp, level, i);
      PathLeadsToRoot(hp, d - 1, Up(hp, level), i / 2);
      TreeHashUp(hp, d, level);
      assert path[1..] == AuthPath(hp, d - 1, Up(hp, level), i / 2);
    }
  }

  // The d low bits of i.
  function LowBits(i: nat, d: nat): (low: nat)
    ensures low < Pow2(d)
    ensures i < Pow2(d) ==> low == i
  {
    if d == 0 then 0 else i % 2 + 2 * LowBits(i / 2, d - 1)
  }

  // Soundness: whatever a path of the tree's depth folds to the root is the leaf that the low bits of
  // the index name, and the path consists of the true siblings; otherwise two of the pairs hashed in the fold and
  // in the tree collide.
  lemma {:induction false} FoldIsSound(hp: (Hash, Hash) -> Hash, d: nat, level: seq<Hash>, x: Hash, i: nat,
                                       path: seq<Hash>)
    requires |level| == Pow2(d) && |path| == d
    requires Fold(hp, x, i, path) == TreeHash(hp, d, level)
    ensures || Collides(hp, FoldPairs(hp, x, i, path) + TreePairs(hp, d, level))
            || (x == level[LowBits(i, d)] && path == AuthPath(hp, d, level, LowBits(i, d)))
  {
    hide Collides, TreeHash, LowBits, Up, LevelPairs;
    if d == 0 {
      SingleLeaf(hp, level, i);
    } else {
      var j := LowBits(i, d);
      LowBitsStep(i, d);
      TreeHashUp(hp, d, level);
      var pair := if i % 2 == 0 then (x, path[0]) else (path[0], x);
      var all := FoldPairs(hp, x, i, path) + TreePairs(hp, d, level);
      FoldIsSound(hp, d - 1, Up(hp, level), hp(pair.0, pair.1), i / 2, path[1..]);
      var above := FoldPairs(hp, hp(pair.0, pair.1), i / 2, path[1..]) + TreePairs(hp, d - 1, Up(hp, level));
      if Collides(hp, above) {
        MoreCollide(hp, above, all);
      } else if !Collides(hp, all) {
        SiblingsMeet(hp, level, j);
        PairIn(level, j);
        Injective(hp, all, pair, if i % 2 == 0 then (level[j], level[Sibling(j)]) else (level[Sibling(j)], level[j]));
        assert path == [path[0]] + path[1..];
      }
    }
  }

  lemma SingleLeaf(hp: (Hash, Hash) -> Hash, level: seq<Hash>, i: nat)
    requires |level| == 1
    ensures TreeHash(hp, 0, level) == level[0] && LowBits(i, 0) == 0
  {
  }

  lemma LowBitsStep(i: nat, d: nat)
    requires d > 0
    ensures LowBits(i, d) / 2 == LowBits(i / 2, d - 1) && LowBits(i, d) % 2 == i % 2
  {
  }

  // Equal roots of equally deep trees come from equal leaves, or two of the pairs hashed in them collide.
  lemma {:induction false} EqualRootsEqualLeaves(hp: (Hash, Hash) -> Hash, d: nat, xs: seq<Hash>, ys: seq<Hash>)
    requires |xs| == |ys| == Pow2(d)
    requires TreeHash(hp, d, xs) == TreeHash(hp, d, ys)
    ensures Collides(hp, TreePairs(hp, d, xs) + TreePairs(hp, d, ys)) || xs == ys
  {
    hide Collides, TreeHash, Up, LevelPairs;
    if d == 0 {
      SingleLeaf(hp, xs, 0);
      SingleLeaf(hp, ys, 0);
      assert xs == [xs[0]] && ys == [ys[0]];
    } else {
      var us, vs := Up(hp, xs), Up(hp, ys);
      var all := TreePairs(hp, d, xs) + TreePairs(hp, d, ys);
      TreeHashUp(hp, d, xs);
      TreeHashUp(hp, d, ys);
      EqualRootsEqualLeaves(hp, d - 1, us, vs);
      if Collides(hp, TreePairs(hp, d - 1, us) + TreePairs(hp, d - 1, vs)) {
        MoreCollide(hp, TreePairs(hp, d - 1, us) + TreePairs(hp, d - 1, vs), all);
      } else if !Collides(hp, all) {
        EqualUpsEqualLevels(hp, xs, ys, all);
      }
    }
  }

  lemma EqualUpsEqualLevels(hp: (Hash, Hash) -> Hash, xs: seq<Hash>, ys: seq<Hash>, all: set<(Hash, Hash)>)
    requires |xs| == |ys| && |xs| % 2 == 0 && Up(hp, xs) == Up(hp, ys)
    requires LevelPairs(xs) <= all && LevelPairs(ys) <= all && !Collides(hp, all)
    ensures xs == ys
  {
    hide Collides;
    forall i | 0 <= i < |xs| ensures xs[i] == ys[i] {
      var j := i / 2;
      assert Up(hp, xs)[j] == hp(xs[2 * j], xs[2 * j + 1]) && Up(hp, ys)[j] == hp(ys[2 * j], ys[2 * j + 1]);
      assert (xs[2 * j], xs[2 * j + 1]) in LevelPairs(xs) && (ys[2 * j], ys[2 * j + 1]) in LevelPairs(ys);
      Injective(hp, all, (xs[2 * j], xs[2 * j + 1]), (ys[2 * j], ys[2 * j + 1]));
    }
  }

  // ---------- The array-based tree ----------

  lemma AppendAssociates(a: seq<Hash>, b: seq<Hash>, c: seq<Hash>)
    ensures a + (b + c) == (a + b) + c
  {
  }

  lemma FlatStep(hp: (Hash, Hash) -> Hash, d: nat, level: seq<Hash>, below: seq<Hash>)
    requires d > 0 && |level| == Pow2(d)
    ensures below + Flat(hp, d, level) == (below + level) + Flat(hp, d - 1, Up(hp, level))
  {
    AppendAssociates(below, level, Flat(hp, d - 1, Up(hp, level)));
  }

  lemma FlatWalk(hp: (Hash, Hash) -> Hash, d: nat, level: seq<Hash>, i: nat)
    requires |level| == Pow2(d) && i < |level|
    ensures i < |Flat(hp, d, level)| && Flat(hp, d, level)[i] == level[i]
    ensures d > 0 ==> |level| <= |Flat(hp, d, level)| && Flat(hp, d, level)[|level|..] == Flat(hp, d - 1, Up(hp, level))
  {
  }

  lemma PathStep(hp: (Hash, Hash) -> Hash, d: nat, level: seq<Hash>, i: nat, before: seq<Hash>)
    requires d > 0 && |level| == Pow2(d) && i < |level|
    ensures Sibling(i) < |level|
    ensures before + AuthPath(hp, d, level, i) ==
            (before + [level[Sibling(i)]]) + AuthPath(hp, d - 1, Up(hp, level), i / 2)
  {
    AppendAssociates(before, [level[Sibling(i)]], AuthPath(hp, d - 1, Up(hp, level), i / 2));
  }

  lemma PathOfOne(hp: (Hash, Hash) -> Hash, level: seq<Hash>)
    requires |level| == 1
    ensures AuthPath(hp, 0, level, 0) == []
  {
  }

  method Pad(zero: Hash, leaves: seq<Hash>) returns (level: seq<Hash>)
    ensures level == Padded(zero, leaves)
  {
    var paddedSize := NextPowerOfTwo(|leaves|);
    level := leaves;
    while |level| < paddedSize
      invariant |leaves| <= |level| <= paddedSize
      invariant level == leaves + Zeros(zero, |level| - |leaves|)
    {
      level := level + [zero];
    }
  }

  method NextLevel(hp: (Hash, Hash) -> Hash, level: seq<Hash>) returns (next: seq<Hash>)
    requires |level| % 2 == 0
    ensures next == Up(hp, level)
  {
    next := [];
    while 2 * |next| < |level|
      invariant 2 * |next| <= |level|
      invariant forall i :: 0 <= i < |next| ==> next[i] == hp(level[2 * i], level[2 * i + 1])
    {
      next := next + [hp(level[2 * |next|], level[2 * |next| + 1])];
    }
  }

  // The bottom-up loop that appends level after level.
  method BuildLevels(hp: (Hash, Hash) -> Hash, base: seq<Hash>, ghost depth: nat) returns (nodes: seq<Hash>)
    requires |base| == Pow2(depth)
    ensures nodes == Flat(hp, depth, base)
  {
    hide Flat, Up;
    nodes := base;
    var current := base;
    ghost var d, below := depth, [];
    while |current| > 1
      invariant |current| == Pow2(d)
      invariant nodes == below + current
      invariant below + Flat(hp, d, current) == Flat(hp, depth, base)
      decreases |current|
    {
      var next := NextLevel(hp, current);
      FlatStep(hp, d, current, below);
      nodes := nodes + next;
      below, d := below + current, d - 1;
      current := next;
    }
    FlatOfOne(hp, current);
  }

  lemma FlatOfOne(hp: (Hash, Hash) -> Hash, level: seq<Hash>)
    requires |level| == 1
    ensures Flat(hp, 0, level) == level
  {
  }

  class MerkleTree {
    const hp: (Hash, Hash) -> Hash
    const zero: Hash
    var nodes: seq<Hash>
    var leafCount: nat
    ghost var leaves: seq<Hash>

    ghost predicate Valid()
      reads this
    {
      && leafCount == |leaves|
      && nodes == if leaves == [] then [zero]
                  else Flat(hp, Depth(|leaves|), Padded(zero, leaves))
    }

    constructor FromHashes(hp: (Hash, Hash) -> Hash, zero: Hash, leaves: seq<Hash>)
      ensures Valid() && this.leaves == leaves && this.hp == hp && this.zero == zero
      ensures leaves != [] ==> |nodes| == 2 * Pow2(Depth(|leaves|)) - 1
    {
      this.hp, this.zero, this.leaves := hp, zero, leaves;
      leafCount := |leaves|;
      if leaves == [] {
        nodes := [zero];
      } else {
        var base := Pad(zero, leaves);
        var all := BuildLevels(hp, base, Depth(|leaves|));
        nodes := all;
      }
    }

    // The last node: the recursive hash of the padded leaves.
    method Root() returns (root: Hash)
      requires Valid()
      ensures root == RootOf(hp, zero, leaves)
    {
      if |nodes| == 0 {
        root := zero;
      } else {
        root := nodes[|nodes| - 1];
      }
      if leaves != [] {
        FlatEndsWithRoot(hp, Depth(|leaves|), Padded(zero, leaves));
      }
    }

    // Every leaf has a proof, made of its true siblings, and the proof is accepted.
    method GetProof(index: nat) returns (proof: Option<MerkleProof>)
      requires Valid()
      ensures proof.None? <==> index >= |leaves|
      ensures proof.Some? ==>
                && proof.value.leafIndex == index
                && proof.value.leafHash == leaves[index]
                && proof.value.root == RootOf(hp, zero, leaves)
                && proof.value.proofHashes == AuthPath(hp, Depth(|leaves|), Padded(zero, leaves), index)
                && Accepts(hp, proof.value)
    {
      if index >= leafCount {
        return None;
      }
      var root := Root();
      ghost var depth := Depth(|leaves|);
      ghost var base := Padded(zero, leaves);
      FlatWalk(hp, depth, base, 0);
      var paddedSize := NextPowerOfTwo(leafCount);
      var hashes := WalkSiblings(index, paddedSize, depth, base);
      PathLeadsToRoot(hp, depth, base, index);
      proof := Some(MerkleProof(index, nodes[index], hashes, root));
    }

    // The loop of `get_proof`: level by level through the flat array, collecting siblings.
    method WalkSiblings(index: nat, paddedSize: nat, ghost depth: nat, ghost base: seq<Hash>)
      returns (hashes: seq<Hash>)
      requires paddedSize == |base| == Pow2(depth) && index < paddedSize
      requires nodes == Flat(hp, depth, base)
      ensures hashes == AuthPath(hp, depth, base, index)
    {
      hide Flat, AuthPath, Up;
      hashes := [];
      var current, levelStart, levelSize := index, 0, paddedSize;
      ghost var d, level := depth, base;
      assert nodes[0..] == nodes;
      while levelSize > 1
        invariant 0 <= current < levelSize == |level| == Pow2(d)
        invariant levelStart <= |nodes| && nodes[levelStart..] == Flat(hp, d, level)
        invariant hashes + AuthPath(hp, d, level, current) == AuthPath(hp, depth, base, index)
        decreases levelSize
      {
        var sibling := if current % 2 == 0 then current + 1 else current - 1;
        FlatWalk(hp, d, level, sibling);
        PathStep(hp, d, level, current, hashes);
        assert nodes[levelStart + sibling] == nodes[levelStart..][sibling] == level[sibling];
        assert nodes[levelStart..][levelSize..] == nodes[levelStart + levelSize..];
        // The array always reaches the sibling, so the zero fallback of the source is never taken.
        if levelStart + sibling < |nodes| {
          hashes := hashes + [nodes[levelStart + sibling]];
        } else {
          assert false;
        }
        level, d := Up(hp, level), d - 1;
        levelStart := levelStart + levelSize;
        levelSize := levelSize / 2;
        current := current / 2;
      }
      PathOfOne(hp, level);
    }
  }

  function RootOf(hp: (Hash, Hash) -> Hash, zero: Hash, leaves: seq<Hash>): Hash {
    if leaves == [] then zero else TreeHash(hp, Depth(|leaves|), Padded(zero, leaves))
  }

  method Verify(hp: (Hash, Hash) -> Hash, proof: MerkleProof) returns (ok: bool)
    ensures ok <==> Accepts(hp, proof)
  {
    var hash: Hash, index := proof.leafHash, proof.leafIndex;
    for k := 0 to |proof.proofHashes|
      invariant Fold(hp, hash, index, proof.proofHashes[k..]) ==
                Fold(hp, proof.leafHash, proof.leafIndex, proof.proofHashes)
    {
      var sibling := proof.proofHashes[k];
      assert proof.proofHashes[k..][1..] == proof.proofHashes[k + 1..];
      hash := if index % 2 == 0 then hp(hash, sibling) else hp(sibling, hash);
      index := index / 2;
    }
    ok := hash == proof.root;
  }

  method VerifyLeaf(hp: (Hash, Hash) -> Hash, proof: MerkleProof, leaf: Hash) returns (ok: bool)
    ensures ok <==> leaf == proof.leafHash && Accepts(hp, proof)
  {
    if leaf != proof.leafHash {
      return false;
    }
    ok := Verify(hp, proof);
  }

  // The level m steps above.
  function UpTimes(hp: (Hash, Hash) -> Hash, level: seq<Hash>, m: nat): seq<Hash>
    decreases m
  {
    if m == 0 then level else UpTimes(hp, Up(hp, level), m - 1)
  }

  lemma {:induction false} RootFromLevel(hp: (Hash, Hash) -> Hash, d: nat, level: seq<Hash>, m: nat)
    requires |level| == Pow2(d) && m <= d
    ensures |UpTimes(hp, level, m)| == Pow2(d - m)
    ensures TreeHash(hp, d - m, UpTimes(hp, level, m)) == TreeHash(hp, d, level)
    ensures TreePairs(hp, d - m, UpTimes(hp, level, m)) <= TreePairs(hp, d, level)
    decreases m
  {
    hide TreeHash, Up, LevelPairs;
    if m > 0 {
      TreeHashUp(hp, d, level);
      RootFromLevel(hp, d - 1, Up(hp, level), m - 1);
    }
  }

  // The index after m steps of a fold.
  function Halved(i: nat, m: nat): nat {
    if m == 0 then i else Halved(i / 2, m - 1)
  }

  lemma {:induction false} FoldSplits(hp: (Hash, Hash) -> Hash, x: Hash, i: nat, path: seq<Hash>, m: nat)
    requires m <= |path|
    ensures var y, k := Fold(hp, x, i, path[..m]), Halved(i, m);
            && Fold(hp, x, i, path) == Fold(hp, y, k, path[m..])
            && FoldPairs(hp, y, k, path[m..]) <= FoldPairs(hp, x, i, path)
    decreases m
  {
    if m == 0 {
      assert path[0..] == path && path[..0] == [];
    } else {
      var y := if i % 2 == 0 then hp(x, path[0]) else hp(path[0], x);
      FoldSplits(hp, y, i / 2, path[1..], m - 1);
      assert path[1..][..m - 1] == path[..m][1..] && path[1..][m - 1..] == path[m..];
    }
  }

  // The pairs hashed in building a tree over these leaves, and in verifying a proof.
  function BuildPairs(hp: (Hash, Hash) -> Hash, zero: Hash, leaves: seq<Hash>): set<(Hash, Hash)> {
    TreePairs(hp, Depth(|leaves|), Padded(zero, leaves))
  }

  function ProofPairs(hp: (Hash, Hash) -> Hash, proof: MerkleProof): set<(Hash, Hash)> {
    FoldPairs(hp, proof.leafHash, proof.leafIndex, proof.proofHashes)
  }

  // What an accepted proof proves, for a proof of any length, since the length is not checked. One as long as the
  // tree is deep names a leaf; one that is k shorter names the node k levels above the leaves; the end of a
  // longer one names a leaf that the beginning hashes up to. The rest of the proof is the one that the tree gives
  // out for that place. Or two of the pairs hashed by the proof and in the tree collide.
  lemma AcceptedProofIsHonest(hp: (Hash, Hash) -> Hash, zero: Hash, leaves: seq<Hash>, proof: MerkleProof)
    requires proof.root == RootOf(hp, zero, leaves) && Accepts(hp, proof)
    ensures var d, n := Depth(|leaves|), |proof.proofHashes|;
            || Collides(hp, ProofPairs(hp, proof) + BuildPairs(hp, zero, leaves))
            || if n <= d then
                 var level, j := UpTimes(hp, Padded(zero, leaves), d - n), LowBits(proof.leafIndex, n);
                 |level| == Pow2(n) && proof.leafHash == level[j] && proof.proofHashes == AuthPath(hp, n, level, j)
               else
                 var j := LowBits(Halved(proof.leafIndex, n - d), d);
                 && Fold(hp, proof.leafHash, proof.leafIndex, proof.proofHashes[..n - d]) == Padded(zero, leaves)[j]
                 && proof.proofHashes[n - d..] == AuthPath(hp, d, Padded(zero, leaves), j)
  {
    hide Collides, TreeHash, Fold, FoldPairs, TreePairs, UpTimes, AuthPath, LowBits, Halved;
    RootIsTreeHash(hp, zero, leaves);
    hide RootOf;
    var d, n, level := Depth(|leaves|), |proof.proofHashes|, Padded(zero, leaves);
    var all := ProofPairs(hp, proof) + BuildPairs(hp, zero, leaves);
    if n <= d {
      var nodes := UpTimes(hp, level, d - n);
      RootFromLevel(hp, d, level, d - n);
      FoldIsSound(hp, n, nodes, proof.leafHash, proof.leafIndex, proof.proofHashes);
      if Collides(hp, ProofPairs(hp, proof) + TreePairs(hp, n, nodes)) {
        MoreCollide(hp, ProofPairs(hp, proof) + TreePairs(hp, n, nodes), all);
      }
    } else {
      var m := n - d;
      var x, i := Fold(hp, proof.leafHash, proof.leafIndex, proof.proofHashes[..m]), Halved(proof.leafIndex, m);
      FoldSplits(hp, proof.leafHash, proof.leafIndex, proof.proofHashes, m);
      FoldIsSound(hp, d, level, x, i, proof.proofHashes[m..]);
      var pairs := FoldPairs(hp, x, i, proof.proofHashes[m..]) + TreePairs(hp, d, level);
      if Collides(hp, pairs) {
        MoreCollide(hp, pairs, all);
      }
    }
  }

  // No leaves and one leaf that is zero are the same to the tree.
  lemma RootIsTreeHash(hp: (Hash, Hash) -> Hash, zero: Hash, leaves: seq<Hash>)
    ensures RootOf(hp, zero, leaves) == TreeHash(hp, Depth(|leaves|), Padded(zero, leaves))
  {
  }

  // ---------- When roots are equal ----------

  // Roots are equal if the leaves of one tree, with their padding, are a level of the other, and only then, or two
  // of the pairs hashed in the trees collide. So neither the number of leaves nor the depth shows in the root.
  lemma EqualRootsIff(hp: (Hash, Hash) -> Hash, zero: Hash, xs: seq<Hash>, ys: seq<Hash>)
    requires Depth(|xs|) <= Depth(|ys|)
    ensures var level := UpTimes(hp, Padded(zero, ys), Depth(|ys|) - Depth(|xs|));
            && (Padded(zero, xs) == level ==> RootOf(hp, zero, xs) == RootOf(hp, zero, ys))
            && (RootOf(hp, zero, xs) == RootOf(hp, zero, ys) ==>
                  Padded(zero, xs) == level || Collides(hp, BuildPairs(hp, zero, xs) + BuildPairs(hp, zero, ys)))
  {
    hide Collides, TreeHash, TreePairs, UpTimes;
    RootIsTreeHash(hp, zero, xs);
    RootIsTreeHash(hp, zero, ys);
    hide RootOf;
    var d, e := Depth(|xs|), Depth(|ys|);
    var level := UpTimes(hp, Padded(zero, ys), e - d);
    RootFromLevel(hp, e, Padded(zero, ys), e - d);
    if RootOf(hp, zero, xs) == RootOf(hp, zero, ys) {
      EqualRootsEqualLeaves(hp, d, Padded(zero, xs), level);
      var pairs := BuildPairs(hp, zero, xs) + TreePairs(hp, d, level);
      if Collides(hp, pairs) {
        MoreCollide(hp, pairs, BuildPairs(hp, zero, xs) + BuildPairs(hp, zero, ys));
      }
    }
  }

  // Two trees with equally many leaves and the same root have the same leaves, or two of the pairs collide.
  lemma RootDeterminesLeaves(hp: (Hash, Hash) -> Hash, zero: Hash, xs: seq<Hash>, ys: seq<Hash>)
    requires |xs| == |ys| && RootOf(hp, zero, xs) == RootOf(hp, zero, ys)
    ensures Collides(hp, BuildPairs(hp, zero, xs) + BuildPairs(hp, zero, ys)) || xs == ys
  {
    hide Collides, BuildPairs, RootOf;
    EqualRootsIff(hp, zero, xs, ys);
    assert xs == Padded(zero, xs)[..|xs|] && ys == Padded(zero, ys)[..|xs|];
  }

  // With unequal counts they need not: unless the count is a power of two, one more leaf that is zero looks like
  // padding; two leaves have the root of one leaf that is their hash; and no leaves that of a zero leaf.
  lemma RootForgetsLeafCount(hp: (Hash, Hash) -> Hash, zero: Hash, leaves: seq<Hash>)
    requires |leaves| != Pow2(Depth(|leaves|))
    ensures RootOf(hp, zero, leaves) == RootOf(hp, zero, leaves + [zero])
  {
    hide RootOf;
    var d, d1 := Depth(|leaves|), Depth(|leaves| + 1);
    assert d1 == d by {
      assert Pow2(d) >= |leaves| + 1;
    }
    assert Padded(zero, leaves) == Padded(zero, leaves + [zero]);
    EqualRootsIff(hp, zero, leaves, leaves + [zero]);
  }

  lemma RootForgetsDepth(hp: (Hash, Hash) -> Hash, zero: Hash, x: Hash, y: Hash)
    ensures RootOf(hp, zero, [hp(x, y)]) == RootOf(hp, zero, [x, y])
  {
    hide RootOf;
    assert Pow2(1) == 2;
    assert Padded(zero, [hp(x, y)]) == [hp(x, y)] && Padded(zero, [x, y]) == [x, y];
    assert UpTimes(hp, [x, y], 1) == Up(hp, [x, y]) == [hp(x, y)];
    EqualRootsIff(hp, zero, [hp(x, y)], [x, y]);
  }
}
