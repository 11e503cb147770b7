/** Variable-length integers of `avm.rs`: unsigned LEB128, section 7.6 of DWARF version 5, limited to 64 bits. */
module Varuint {
  import opened Ints
  import opened Arithmetic
  import opened Results

  datatype Error = UnexpectedEnd | TooLarge

  datatype Read = Read(value: u64, size: nat)

  // ---------- Specification ----------

  function Encode(v: nat): (bytes: seq<u8>)
    ensures bytes != []
  {
    if v < 128 then [v] else [v % 128 + 128] + Encode(v / 128)
  }

  const MAX_GROUPS := 10

  // The weight of the k-th group of seven bits.
  function Weight(k: nat): (w: nat)
    ensures w >= 1
  {
    Pow2(7 * k)
  }

  // What the k-th byte contributes; bits beyond the 64th are shifted out.
  function Group(byte: u8, k: nat): u64 {
    WrapU64((byte % 128) * Weight(k))
  }

  function Add(a: u64, b: u64): u64 {
    WrapU64(a + b)
  }

  // What was read so far, with what follows.
  function Joined(value: u64, size: nat, rest: Result<Read, Error>): Result<Read, Error> {
    match rest
    case Ok(r) => Ok(Read(Add(value, r.value), size + r.size))
    case Err(e) => Err(e)
  }

  // The rest of a number from its k-th byte on.
  function Decode(bytes: seq<u8>, p: nat, k: nat): Result<Read, Error>
    decreases MAX_GROUPS - k
  {
    if p >= |bytes| then Err(UnexpectedEnd)
    else if bytes[p] < 128 then Ok(Read(Group(bytes[p], k), 1))
    else if k + 1 >= MAX_GROUPS then Err(TooLarge)
    else Joined(Group(bytes[p], k), 1, Decode(bytes, p + 1, k + 1))
  }

  lemma AddTwice(a: u64, b: u64, c: u64)
    ensures Add(a, Add(b, c)) == Add(Add(a, b), c)
  {
  }

  // ---------- The loops of the source ----------

  method WriteVaruint(val: u64) returns (bytes: seq<u8>)
    ensures bytes == Encode(val)
  {
    bytes := [];
    var v := val;
    while true
      invariant Encode(val) == bytes + Encode(v)
      decreases v
    {
      var byte: u8 := v % 128;
      var more := v / 128;
      if more != 0 {
        byte := byte + 128;
      }
      bytes := bytes + [byte];
      v := more;
      if v == 0 {
        break;
      }
    }
  }

  // Joining the groups of bits by `|` is adding them, as they do not overlap.
  method ReadVaruint(bytecode: seq<u8>, pc: nat) returns (r: Result<Read, Error>)
    ensures r == Decode(bytecode, pc, 0)
  {
    hide Add, Group, Pow2;
    var result: u64 := 0;
    var shift, count := 0, 0;
    DecodeFromStart(bytecode, pc);
    while true
      invariant shift == 7 * count && count < MAX_GROUPS
      invariant Decode(bytecode, pc, 0) == Joined(result, count, Decode(bytecode, pc + count, count))
      decreases MAX_GROUPS - count
    {
      if pc + count >= |bytecode| {
        return Err(UnexpectedEnd);
      }
      var byte := bytecode[pc + count];
      GroupIsShift(byte, count, shift);
      JoinNext(bytecode, pc + count, count, result);
      count := count + 1;
      result := Add(result, WrapU64((byte % 128) * Pow2(shift)));
      if byte < 128 {
        break;
      }
      shift := shift + 7;
      if shift > 63 {
        return Err(TooLarge);
      }
    }
    return Ok(Read(result, count));
  }

  lemma DecodeFromStart(bytes: seq<u8>, p: nat)
    ensures Decode(bytes, p, 0) == Joined(0, 0, Decode(bytes, p, 0))
  {
  }

  lemma GroupIsShift(byte: u8, k: nat, shift: nat)
    requires shift == 7 * k
    ensures Group(byte, k) == WrapU64((byte % 128) * Pow2(shift))
  {
  }

  // One more byte read.
  lemma JoinNext(bytes: seq<u8>, p: nat, k: nat, result: u64)
    requires p < |bytes|
    ensures var next := Add(result, Group(bytes[p], k));
            Joined(result, k, Decode(bytes, p, k)) ==
            if bytes[p] < 128 then Ok(Read(next, k + 1))
            else if k + 1 >= MAX_GROUPS then Err(TooLarge)
            else Joined(next, k + 1, Decode(bytes, p + 1, k + 1))
  {
    hide Add, Group;
    var rest := Decode(bytes, p + 1, k + 1);
    if rest.Ok? {
      AddTwice(result, Group(bytes[p], k), rest.value.value);
    }
  }

  // ---------- Round trip ----------

  lemma FirstWeight()
    ensures Weight(0) == 1
  {
  }

  lemma NextWeight(k: nat)
    ensures Weight(k + 1) == 128 * Weight(k)
  {
    var n := 7 * k;
    assert Pow2(n + 7) == 2 * Pow2(n + 6) && Pow2(n + 6) == 2 * Pow2(n + 5) && Pow2(n + 5) == 2 * Pow2(n + 4);
    assert Pow2(n + 4) == 2 * Pow2(n + 3) && Pow2(n + 3) == 2 * Pow2(n + 2) && Pow2(n + 2) == 2 * Pow2(n + 1);
  }

  // Taking off one group of a number that fits.
  lemma OneGroup(v: nat, w: nat)
    requires v * w < U64 && w > 0
    ensures (v / 128) * (128 * w) < U64 && (v % 128) * w < U64 && (v % 128) * w + (v / 128) * (128 * w) == v * w
  {
    var q, r := v / 128, v % 128;
    assert v == 128 * q + r;
    assert (128 * q + r) * w == q * (128 * w) + r * w;
    MulGrows(0, q, 128 * w);
    MulGrows(0, r, w);
  }

  lemma {:induction false} DecodeEncodedFrom(v: nat, k: nat, bytes: seq<u8>, p: nat)
    requires k < MAX_GROUPS && v * Weight(k) < U64
    requires p + |Encode(v)| <= |bytes| && bytes[p..p + |Encode(v)|] == Encode(v)
    ensures Decode(bytes, p, k) == Ok(Read(v * Weight(k), |Encode(v)|))
    ensures k + |Encode(v)| <= MAX_GROUPS
  {
    hide Weight;
    var w := Weight(k);
    assert bytes[p] == Encode(v)[0];
    OneGroup(v, w);
    if v >= 128 {
      LastGroup(v, k);
      NextWeight(k);
      assert bytes[p + 1..p + |Encode(v)|] == Encode(v)[1..] == Encode(v / 128);
      DecodeEncodedFrom(v / 128, k + 1, bytes, p + 1);
    }
  }

  // More than one group is left only before the last one.
  lemma LastGroup(v: nat, k: nat)
    requires v >= 128 && k < MAX_GROUPS && v * Weight(k) < U64
    ensures k + 1 < MAX_GROUPS
  {
    hide Weight;
    if k + 1 == MAX_GROUPS {
      LastWeight();
      MulGrows(128, v, Weight(9));
    }
  }

  lemma LastWeight()
    ensures Weight(9) == 0x8000_0000_0000_0000
  {
    FirstWeight();
    hide Weight;
    NextWeight(0);
    NextWeight(1);
    NextWeight(2);
    NextWeight(3);
    NextWeight(4);
    NextWeight(5);
    NextWeight(6);
    NextWeight(7);
    NextWeight(8);
  }

  // Decoding at the offset of an encoding gives the value and the length of the encoding, whatever
  // surrounds it.
  lemma DecodeEncoded(v: u64, before: seq<u8>, after: seq<u8>)
    ensures Decode(before + Encode(v) + after, |before|, 0) == Ok(Read(v, |Encode(v)|))
    ensures |Encode(v)| <= MAX_GROUPS
  {
    var bytes := before + Encode(v) + after;
    assert bytes[|before|..|before| + |Encode(v)|] == Encode(v);
    FirstWeight();
    DecodeEncodedFrom(v, 0, bytes, |before|);
  }

  // ---------- The other way round ----------

  // All bytes but the last announce another one.
  predicate Terminated(seg: seq<u8>) {
    seg != [] && seg[|seg| - 1] < 128 && forall i :: 0 <= i < |seg| - 1 ==> seg[i] >= 128
  }

  // The number a sequence of groups stands for, without a limit.
  function Plain(seg: seq<u8>): nat {
    if seg == [] then 0 else seg[0] % 128 + 128 * Plain(seg[1..])
  }

  lemma {:induction false} PlainOfEncoded(v: nat)
    ensures Plain(Encode(v)) == v
  {
    if v >= 128 {
      PlainOfEncoded(v / 128);
    }
  }

  // The last group decides the size of the number.
  lemma {:induction false} PlainBounds(seg: seq<u8>)
    requires Terminated(seg)
    ensures var last, w := seg[|seg| - 1], Weight(|seg| - 1); last * w <= Plain(seg) < (last + 1) * w
    decreases |seg|
  {
    hide Weight;
    FirstWeight();
    var last, n := seg[|seg| - 1], |seg| - 1;
    if n > 0 {
      PlainBounds(seg[1..]);
      NextWeight(n - 1);
      BoundsStep(seg[0] % 128, Plain(seg[1..]), last, Weight(n - 1));
    } else {
      assert Plain(seg[1..]) == 0;
    }
  }

  lemma BoundsStep(a: nat, rest: nat, last: nat, w: nat)
    requires a < 128 && last * w <= rest < (last + 1) * w
    ensures last * (128 * w) <= a + 128 * rest < (last + 1) * (128 * w)
  {
    assert last * (128 * w) == 128 * (last * w) && (last + 1) * (128 * w) == 128 * ((last + 1) * w);
  }

  lemma {:induction false} DecodedSize(bytes: seq<u8>, p: nat, k: nat)
    requires k < MAX_GROUPS && Decode(bytes, p, k).Ok?
    ensures var n := Decode(bytes, p, k).value.size; 0 < n <= MAX_GROUPS - k && p + n <= |bytes|
    decreases MAX_GROUPS - k
  {
    hide Group, Add;
    if bytes[p] >= 128 {
      DecodedSize(bytes, p + 1, k + 1);
    }
  }

  // What the decoder accepts, and what it makes of it.
  lemma {:induction false} DecodedIsPlain(bytes: seq<u8>, p: nat, k: nat, seg: seq<u8>)
    requires k < MAX_GROUPS && Decode(bytes, p, k).Ok?
    requires var n := Decode(bytes, p, k).value.size; p + n <= |bytes| && seg == bytes[p..p + n]
    ensures Terminated(seg) && Decode(bytes, p, k).value.value == WrapU64(Plain(seg) * Weight(k))
    decreases MAX_GROUPS - k
  {
    hide Weight, WrapU64;
    if bytes[p] >= 128 {
      DecodedSize(bytes, p + 1, k + 1);
      DecodedIsPlain(bytes, p + 1, k + 1, seg[1..]);
      NextWeight(k);
      AddGroup(seg[0] % 128, Plain(seg[1..]), Weight(k));
    } else {
      assert seg == [bytes[p]] && Plain(seg[1..]) == 0;
    }
  }

  lemma AddGroup(a: nat, rest: nat, w: nat)
    ensures Add(WrapU64(a * w), WrapU64(rest * (128 * w))) == WrapU64((a + 128 * rest) * w)
  {
    assert (a + 128 * rest) * w == a * w + rest * (128 * w);
    WrapSum(a * w, rest * (128 * w));
  }

  lemma WrapSum(x: nat, y: nat)
    ensures WrapU64(WrapU64(x) + WrapU64(y)) == WrapU64(x + y)
  {
  }

  lemma PlainPositive(seg: seq<u8>)
    requires Terminated(seg) && seg[|seg| - 1] != 0
    ensures Plain(seg) > 0
  {
    hide Plain, Weight;
    PlainBounds(seg);
    MulGrows(1, seg[|seg| - 1], Weight(|seg| - 1));
  }

  lemma {:induction false} EncodePlainIff(seg: seq<u8>)
    requires Terminated(seg)
    ensures Encode(Plain(seg)) == seg <==> |seg| == 1 || seg[|seg| - 1] != 0
    decreases |seg|
  {
    hide Encode;
    var rest := seg[1..];
    if |seg| == 1 {
      assert Plain(rest) == 0 && seg == [seg[0]];
      EncodeOne(seg[0]);
    } else {
      EncodePlainIff(rest);
      EncodeFirst(seg[0], Plain(rest));
      assert seg == [seg[0]] + rest;
      if rest[|rest| - 1] != 0 {
        PlainPositive(rest);
      }
    }
  }

  lemma EncodeOne(byte: u8)
    requires byte < 128
    ensures Encode(byte) == [byte]
  {
  }

  lemma EncodeFirst(byte: u8, rest: nat)
    requires byte >= 128
    ensures Encode(byte % 128 + 128 * rest) == if rest == 0 then [byte - 128] else [byte] + Encode(rest)
  {
  }

  // What was decoded is the encoding of the value exactly if no group is wasted and no bit is lost: the
  // last of several bytes is not zero, and a tenth byte is at most one.
  lemma DecodedIsEncodingIff(bytes: seq<u8>, p: nat)
    requires Decode(bytes, p, 0).Ok?
    ensures var r := Decode(bytes, p, 0).value;
            && 0 < r.size <= MAX_GROUPS && p + r.size <= |bytes|
            && var last := bytes[p + r.size - 1];
               bytes[p..p + r.size] == Encode(r.value)
               <==> (r.size == 1 || last != 0) && (r.size == MAX_GROUPS ==> last <= 1)
  {
    hide Decode, Weight, Encode, Plain;
    var r := Decode(bytes, p, 0).value;
    FirstWeight();
    DecodedSize(bytes, p, 0);
    var seg := bytes[p..p + r.size];
    DecodedIsPlain(bytes, p, 0, seg);
    EncodePlainIff(seg);
    PlainOfEncoded(r.value);
    FitsIff(seg);
  }

  lemma FitsIff(seg: seq<u8>)
    requires Terminated(seg) && |seg| <= MAX_GROUPS
    ensures Plain(seg) < U64 <==> (|seg| == MAX_GROUPS ==> seg[|seg| - 1] <= 1)
  {
    hide Weight;
    var last, w := seg[|seg| - 1], Weight(|seg| - 1);
    PlainBounds(seg);
    LastWeight();
    if |seg| == MAX_GROUPS {
    } else {
      WeightsGrow(|seg|, MAX_GROUPS - 1);
      NextWeight(|seg| - 1);
      MulGrows(last + 1, 128, w);
    }
  }

  lemma {:induction false} WeightsGrow(j: nat, k: nat)
    requires j <= k
    ensures Weight(j) <= Weight(k)
    decreases k
  {
    hide Weight;
    if j < k {
      WeightsGrow(j, k - 1);
      NextWeight(k - 1);
    }
  }
}
