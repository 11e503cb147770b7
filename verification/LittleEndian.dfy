/** Numbers as little-endian bytes. */
module LittleEndian {
  import opened Ints
  import opened Arithmetic

  function Pow256(n: nat): (p: nat)
    ensures p >= 1
  {
    if n == 0 then 1 else 256 * Pow256(n - 1)
  }

  // The number that bytes spell.
  function LeValue(bytes: seq<u8>): nat {
    if bytes == [] then 0 else bytes[0] + 256 * LeValue(bytes[1..])
  }

  // The n low bytes of a number.
  function LeBytes(v: nat, n: nat): (bytes: seq<u8>)
    ensures |bytes| == n
  {
    if n == 0 then [] else [v % 256] + LeBytes(v / 256, n - 1)
  }

  lemma {:induction false} LeBytesOfValue(bytes: seq<u8>)
    ensures LeValue(bytes) < Pow256(|bytes|) && LeBytes(LeValue(bytes), |bytes|) == bytes
  {
    if bytes != [] {
      var rest := LeValue(bytes[1..]);
      LeBytesOfValue(bytes[1..]);
      DivModUnique(bytes[0] + 256 * rest, rest, 256, bytes[0]);
      assert bytes == [bytes[0]] + bytes[1..];
    }
  }

  lemma {:induction false} LeValueOfBytes(v: nat, n: nat)
    ensures LeValue(LeBytes(v, n)) == v % Pow256(n)
  {
    if n > 0 {
      LeValueOfBytes(v / 256, n - 1);
      DivTwice(v, 256, Pow256(n - 1));
    }
  }

  lemma LeValueExact(v: nat, n: nat)
    requires v < Pow256(n)
    ensures LeValue(LeBytes(v, n)) == v
  {
    LeValueOfBytes(v, n);
    DivModUnique(v, 0, Pow256(n), v);
  }
}
