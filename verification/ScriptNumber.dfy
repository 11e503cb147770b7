/** Script numbers of `kaspa.rs`: little-endian, sign bit in the top bit of the last byte. */
module ScriptNumber {
  import opened Ints
  import opened Results
  import opened Arithmetic
  import opened LittleEndian

  type Elem = seq<u8>

  datatype NumError = NumberTooLong

  // ---------- Specification ----------

  // Little-endian bytes of a natural number, none for zero.
  function Bytes(n: nat): (s: seq<u8>)
    ensures n > 0 ==> s != [] && s[|s| - 1] > 0
    ensures n == 0 ==> s == []
  {
    if n == 0 then [] else [n % 256] + Bytes(n / 256)
  }

  function FromI64(v: i64): Elem {
    WithSign(Bytes(Abs(v)), v < 0)
  }

  function WithSign(mag: seq<u8>, negative: bool): Elem {
    if mag == [] then []
    else if Last(mag) >= 128 then mag + [if negative then 128 else 0]
    else if negative then SetLast(mag, Last(mag) + 128)
    else mag
  }

  function Last(s: seq<u8>): u8
    requires s != []
  {
    s[|s| - 1]
  }

  function SetLast(s: seq<u8>, b: u8): (r: seq<u8>)
    requires s != []
    ensures |r| == |s| && r != [] && Last(r) == b
    ensures r == s[..|s| - 1] + [b]
  {
    s[|s| - 1 := b]
  }

  function Magnitude(e: Elem): nat
    requires e != []
  {
    LeValue(SetLast(e, Last(e) % 128))
  }

  function ToI64(e: Elem): (r: Result<i64, NumError>)
    ensures r.Ok? <==> |e| <= 8
    ensures r.Ok? ==> r.value > -I64_HALF
  {
    if e == [] then Ok(0)
    else if |e| > 8 then Err(NumberTooLong)
    else
      MagnitudeFits(e);
      var m: int := Magnitude(e);
      Ok(if Last(e) >= 128 then -m else m)
  }

  // Some byte is non-zero once the sign bit is ignored.
  predicate IsTrue(e: Elem) {
    exists i :: 0 <= i < |e| && (if i == |e| - 1 then e[i] % 128 else e[i]) != 0
  }

  // No shorter element carries the same number.
  predicate Minimal(e: Elem) {
    e == [] || Last(e) % 128 != 0 || (|e| >= 2 && e[|e| - 2] >= 128)
  }

  // ---------- Facts about little-endian bytes ----------

  lemma {:induction false} ValueOfBytes(n: nat)
    ensures LeValue(Bytes(n)) == n
  {
    if n > 0 {
      ValueOfBytes(n / 256);
      assert Bytes(n)[1..] == Bytes(n / 256);
    }
  }

  lemma {:induction false} BytesOfValue(s: seq<u8>)
    requires s == [] || Last(s) > 0
    ensures Bytes(LeValue(s)) == s
  {
    if s != [] {
      BytesOfValue(s[1..]);
      var v := LeValue(s[1..]);
      if |s| > 1 {
        assert Last(s[1..]) == Last(s);
        assert Bytes(0) == [] != s[1..];
      }
      assert LeValue(s) % 256 == s[0] && LeValue(s) / 256 == v;
      assert s == [s[0]] + s[1..];
    }
  }

  lemma {:induction false} ValueSplit(s: seq<u8>, b: u8)
    ensures LeValue(s + [b]) == LeValue(s) + b * Pow256(|s|)
  {
    if s == [] {
      assert LeValue([b][1..]) == 0;
    } else {
      ValueSplit(s[1..], b);
      assert (s + [b])[1..] == s[1..] + [b];
      var p := Pow256(|s| - 1);
      assert 256 * (b * p) == b * (256 * p);
    }
  }

  lemma MagnitudeFits(e: Elem)
    requires 0 < |e| <= 8
    ensures Magnitude(e) < I64_HALF
  {
    var n := |e| - 1;
    ValueSplit(e[..n], Last(e) % 128);
    LeBytesOfValue(e[..n]);
    Pow256Table();
    Pow256Grows(n, 7);
    var p := Pow256(n);
    MulGrows(Last(e) % 128 + 1, 128, p);
    assert LeValue(e[..n]) + (Last(e) % 128) * p < (Last(e) % 128 + 1) * p;
  }

  lemma {:induction false} ValueAtLeast(s: seq<u8>)
    requires s != []
    ensures LeValue(s) >= Last(s) * Pow256(|s| - 1)
  {
    ValueSplit(s[..|s| - 1], Last(s));
    assert s == s[..|s| - 1] + [Last(s)];
  }

  lemma Pow256Grows(m: nat, n: nat)
    requires m <= n
    ensures Pow256(m) <= Pow256(n)
  {
    if m < n {
      Pow256Grows(m, n - 1);
    }
  }

  // More bytes than a magnitude below 2^63 can take.
  lemma LongIsLarge(s: seq<u8>)
    requires s != [] && Last(s) > 0
    requires |s| > 8 || (|s| == 8 && Last(s) >= 128)
    ensures LeValue(s) >= I64_HALF
  {
    ValueAtLeast(s);
    Pow256Table();
    var p := Pow256(|s| - 1);
    if |s| > 8 {
      Pow256Grows(8, |s| - 1);
      MulGrows(1, Last(s), p);
    } else {
      MulGrows(128, Last(s), p);
    }
  }

  lemma Pow256Table()
    ensures Pow256(7) == 0x100_0000_0000_0000 && Pow256(8) == 0x1_0000_0000_0000_0000
  {
    assert Pow256(1) == 0x100;
    assert Pow256(3) == 0x100_0000;
    assert Pow256(5) == 0x100_0000_0000;
    assert Pow256(7) == 0x100_0000_0000_0000;
  }

  lemma BytesFit(n: nat)
    requires 0 < n < I64_HALF
    ensures |Bytes(n)| <= 8
    ensures Last(Bytes(n)) >= 128 ==> |Bytes(n)| <= 7
  {
    ValueOfBytes(n);
    if |Bytes(n)| > 8 || (|Bytes(n)| == 8 && Last(Bytes(n)) >= 128) {
      LongIsLarge(Bytes(n));
    }
  }

  // ---------- Main results ----------

  // Encoding then decoding is the identity on every i64 but the least one, whose encoding takes nine bytes.
  lemma RoundTripNumber(v: i64)
    ensures ToI64(FromI64(v)) == Ok(v) <==> v != -I64_HALF
  {
    hide Bytes, LeValue, Magnitude, WithSign;
    var mag := Bytes(Abs(v));
    if v == -I64_HALF {
      LeastHasNineBytes();
    } else if v == 0 {
      ZeroHasNoBytes();
    } else {
      BytesFit(Abs(v));
      ValueOfBytes(Abs(v));
      SignedMagnitude(mag, v < 0);
    }
  }

  lemma ZeroHasNoBytes()
    ensures FromI64(0) == []
  {
  }

  // The sign, as a bit or as a byte of its own, leaves the magnitude as it was.
  lemma SignedMagnitude(mag: seq<u8>, negative: bool)
    requires mag != [] && Last(mag) > 0
    ensures var e := WithSign(mag, negative);
            e != [] && Magnitude(e) == LeValue(mag) && (Last(e) >= 128 <==> negative)
            && |e| == if Last(mag) >= 128 then |mag| + 1 else |mag|
  {
    hide LeValue;
    var e := WithSign(mag, negative);
    if Last(mag) >= 128 {
      ValueSplit(mag, 0);
      assert SetLast(e, 0) == mag + [0];
    } else {
      assert SetLast(e, Last(mag)) == mag;
    }
  }

  lemma LeastHasNineBytes()
    ensures |FromI64(-I64_HALF)| == 9
  {
    var s := [0, 0, 0, 0, 0, 0, 0, 128];
    assert s[7..] == [128] && s[6..] == [0] + s[7..] && s[5..] == [0] + s[6..] && s[4..] == [0] + s[5..];
    assert s[3..] == [0] + s[4..] && s[2..] == [0] + s[3..] && s[1..] == [0] + s[2..] && s == [0] + s[1..];
    assert LeValue(s[7..]) == 128;
    assert LeValue(s[5..]) == 128 * 0x1_0000;
    assert LeValue(s[3..]) == 128 * 0x1_0000_0000;
    assert LeValue(s[1..]) == 128 * 0x1_0000_0000_0000;
    BytesOfValue(s);
  }

  lemma EncodingIsMinimal(v: i64)
    ensures Minimal(FromI64(v))
  {
    var mag := Bytes(Abs(v));
    if mag != [] && Last(mag) >= 128 {
      assert FromI64(v)[|mag| - 1] == Last(mag);
    }
  }

  // Decoding then encoding is the identity exactly on the minimal elements, so every number has one minimal form.
  lemma MinimalIffCanonical(e: Elem)
    requires |e| <= 8
    ensures FromI64(ToI64(e).value) == e <==> Minimal(e)
  {
    EncodingIsMinimal(ToI64(e).value);
    if e != [] && Minimal(e) {
      MinimalDecodes(e);
    }
  }

  // The magnitude bytes of a minimal element, without a separate sign byte.
  function Digits(e: Elem): (s: seq<u8>)
    requires e != [] && Minimal(e)
    ensures s != [] && Last(s) > 0
  {
    if Last(e) % 128 != 0 then SetLast(e, Last(e) % 128) else e[..|e| - 1]
  }

  lemma MinimalDecodes(e: Elem)
    requires 0 < |e| <= 8 && Minimal(e)
    ensures FromI64(ToI64(e).value) == e
  {
    var s := Digits(e);
    MagnitudeOfDigits(e);
    BytesOfValue(s);
    ValueAtLeast(s);
    MulGrows(1, Last(s), Pow256(|s| - 1));
    var v := ToI64(e).value;
    assert Abs(v) == LeValue(s) && (v < 0 <==> Last(e) >= 128);
    SignOfDigits(e);
  }

  lemma MagnitudeOfDigits(e: Elem)
    requires e != [] && Minimal(e)
    ensures Magnitude(e) == LeValue(Digits(e))
  {
    if Last(e) % 128 == 0 {
      ValueSplit(e[..|e| - 1], 0);
    }
  }

  lemma SignOfDigits(e: Elem)
    requires e != [] && Minimal(e)
    ensures WithSign(Digits(e), Last(e) >= 128) == e
  {
    assert e == e[..|e| - 1] + [Last(e)];
  }

  lemma {:induction false} ZeroValue(s: seq<u8>)
    ensures LeValue(s) == 0 <==> forall i :: 0 <= i < |s| ==> s[i] == 0
  {
    if s != [] {
      ZeroValue(s[1..]);
      assert s == [s[0]] + s[1..];
      if LeValue(s) == 0 {
        forall i | 0 <= i < |s| ensures s[i] == 0 {
          if i > 0 {
            assert s[i] == s[1..][i - 1];
          }
        }
      } else if s[0] == 0 {
        var j :| 0 <= j < |s| - 1 && s[1..][j] != 0;
        assert s[j + 1] != 0;
      }
    }
  }

  // An element is true exactly when its number is not zero (negative zero included).
  lemma TrueIffNonZero(e: Elem)
    requires |e| <= 8
    ensures IsTrue(e) <==> ToI64(e).value != 0
  {
    if e != [] {
      var m := SetLast(e, Last(e) % 128);
      ZeroValue(m);
      assert forall i :: 0 <= i < |e| ==> m[i] == if i == |e| - 1 then e[i] % 128 else e[i];
    }
  }

  // ---------- The loops of the source ----------

  method MagnitudeBytes(n: nat) returns (bytes: seq<u8>)
    ensures bytes == Bytes(n)
  {
    var rest := n;
    bytes := [];
    while rest > 0
      invariant bytes + Bytes(rest) == Bytes(n)
    {
      assert bytes + ([rest % 256] + Bytes(rest / 256)) == (bytes + [rest % 256]) + Bytes(rest / 256);
      bytes := bytes + [rest % 256];
      rest := rest / 256;
    }
  }

  method EncodeI64(v: i64) returns (e: Elem)
    ensures e == FromI64(v)
  {
    if v == 0 {
      return [];
    }
    var negative := v < 0;
    e := MagnitudeBytes(Abs(v));
    if e[|e| - 1] >= 128 {
      e := e + [if negative then 128 else 0];
    } else if negative {
      e := e[|e| - 1 := e[|e| - 1] + 128];
    }
  }

  method DecodeI64(e: Elem) returns (r: Result<i64, NumError>)
    ensures r == ToI64(e)
  {
    if |e| == 0 {
      return Ok(0);
    }
    if |e| > 8 {
      return Err(NumberTooLong);
    }
    var negative := e[|e| - 1] >= 128;
    hide LeValue, Pow256;
    ghost var m := SetLast(e, Last(e) % 128);
    MagnitudeFits(e);
    EmptyValue();
    var result, weight := 0, 1;
    for i := 0 to |e|
      invariant weight == Pow256(i)
      invariant result == LeValue(m[..i])
    {
      var val: u8 := e[i];
      if i == |e| - 1 && negative {
        val := val % 128;
      }
      assert val == m[i];
      NextByte(m, i);
      result := result + val * weight;
      weight := weight * 256;
    }
    assert m[..|e|] == m;
    r := Ok(if negative then -result else result);
  }

  lemma EmptyValue()
    ensures LeValue([]) == 0 && Pow256(0) == 1
  {
  }

  lemma NextByte(m: seq<u8>, i: nat)
    requires i < |m|
    ensures LeValue(m[..i + 1]) == LeValue(m[..i]) + m[i] * Pow256(i) && Pow256(i + 1) == Pow256(i) * 256
  {
    ValueSplit(m[..i], m[i]);
    assert m[..i + 1] == m[..i] + [m[i]];
  }

  method TestTrue(e: Elem) returns (b: bool)
    ensures b <==> IsTrue(e)
  {
    for i := 0 to |e|
      invariant forall j :: 0 <= j < i ==> (if j == |e| - 1 then e[j] % 128 else e[j]) == 0
    {
      if i == |e| - 1 {
        if e[i] % 128 != 0 {
          return true;
        }
      } else if e[i] != 0 {
        return true;
      }
    }
    return false;
  }
}
