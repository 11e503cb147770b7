/** The gas meter of `gas.rs`, shared by every VM. */
module Gas {
  import opened Ints

  const BASE := 2
  const VERY_LOW := 3
  const LOW := 5
  const CALL := 700
  const SHA3_BASE := 30
  const SHA3_WORD := 6
  const SLOAD := 800
  const SSTORE_SET := 20000
  const SSTORE_RESET := 5000
  const LOG := 375
  const LOG_DATA := 8

  // Whether `amount` more fits; the sum saturates at u64::MAX, so under that limit everything fits.
  predicate Fits(used: u64, amount: nat, limit: u64) {
    SatAdd(used, amount) <= limit
  }

  function Words(n: nat): nat {
    (n + 31) / 32
  }

  // ---------- Values ----------

  datatype Meter = Meter(limit: u64, used: u64, refund: u64)

  function Charge(m: Meter, amount: nat): Meter {
    m.(used := if Fits(m.used, amount, m.limit) then SatAdd(m.used, amount) else m.limit)
  }

  function Remaining(m: Meter): (r: u64)
    ensures m.used <= m.limit ==> r == m.limit - m.used
  {
    if m.used <= m.limit then m.limit - m.used else 0
  }

  function FinalUsed(m: Meter): (r: u64)
    ensures r <= m.used <= 2 * r
    ensures m.refund == 0 ==> r == m.used
  {
    m.used - Min(m.refund, m.used / 2)
  }

  // A meter for a nested call: at most 63/64 of what is left.
  function SubMeter(m: Meter, request: u64): (s: Meter)
    ensures s.used == 0 && s.limit <= request && s.limit <= Remaining(m)
    ensures m.used <= m.limit ==> 64 * (Remaining(m) - s.limit) >= Remaining(m) - 63
  {
    var available := Remaining(m);
    Meter(Min(request, available - available / 64), 0, 0)
  }

  function ReturnGas(m: Meter, sub: Meter): Meter {
    m.(refund := SatAdd(m.refund, sub.refund), used := if m.used >= Remaining(sub) then m.used - Remaining(sub) else 0)
  }

  // Charging a nested call's whole limit up front and returning the rest costs the caller what the call used.
  lemma NestedCallConservesGas(m: Meter, request: u64, sub: Meter)
    requires m.used <= m.limit
    requires sub.limit == SubMeter(m, request).limit && sub.used <= sub.limit
    ensures var after := ReturnGas(Charge(m, sub.limit), sub);
            after.used == m.used + sub.used && after.used <= m.limit && Remaining(after) >= Remaining(m) / 64
  {
    assert Fits(m.used, sub.limit, m.limit);
  }

  // Memory cost with the u64 arithmetic of the source.
  function ExpansionCost(size: u64): u64 {
    var words := WrapU64(size + 31) / 32;
    WrapU64(WrapU64(words * words) / 512 + words * 3)
  }

  function MemoryCost(current: u64, next: u64): u64 {
    if next <= current then 0
    else if ExpansionCost(next) >= ExpansionCost(current) then ExpansionCost(next) - ExpansionCost(current) else 0
  }

  // The largest size whose word count can be squared in 64 bits.
  const MAX_PRICED_SIZE: u64 := 32 * 0xFFFF_FFFF

  lemma ExpansionCostGrows(a: u64, b: u64)
    requires a <= b <= MAX_PRICED_SIZE
    ensures ExpansionCost(a) <= ExpansionCost(b)
  {
    var v, w := (a + 31) / 32, (b + 31) / 32;
    assert v <= w <= 0xFFFF_FFFF;
    SquareGrows(v, w);
    SquareGrows(w, 0xFFFF_FFFF);
    assert WrapU64(v * v) == v * v && WrapU64(w * w) == w * w;
  }

  lemma SquareGrows(v: nat, w: nat)
    requires v <= w
    ensures v * v <= w * w
  {
    assert w * w == v * v + (w - v) * (w + v);
  }

  // Growing memory in two steps costs the same as growing it at once.
  lemma MemoryCostTelescopes(a: u64, b: u64, c: u64)
    requires a <= b <= c <= MAX_PRICED_SIZE
    ensures MemoryCost(a, b) + MemoryCost(b, c) == MemoryCost(a, c)
  {
    ExpansionCostGrows(a, b);
    ExpansionCostGrows(b, c);
  }

  // One byte beyond that size the squared word count wraps around and the price drops, so that growing by this
  // byte is free.
  lemma MemoryCostWraps()
    ensures ExpansionCost(MAX_PRICED_SIZE + 1) == 3 * 0x1_0000_0000 < ExpansionCost(MAX_PRICED_SIZE)
    ensures MemoryCost(MAX_PRICED_SIZE, MAX_PRICED_SIZE + 1) == 0
  {
  }

  ghost predicate GrowsUpTo(m: u64) {
    forall a: u64, b: u64 :: a <= b <= m ==> ExpansionCost(a) <= ExpansionCost(b)
  }

  // Up to a size the price never falls if and only if the size is priced without wrapping.
  lemma ExpansionCostGrowsIff(m: u64)
    ensures GrowsUpTo(m) <==> m <= MAX_PRICED_SIZE
  {
    hide ExpansionCost;
    if m <= MAX_PRICED_SIZE {
      forall a: u64, b: u64 | a <= b <= m ensures ExpansionCost(a) <= ExpansionCost(b) {
        ExpansionCostGrows(a, b);
      }
    } else {
      MemoryCostWraps();
    }
  }

  ghost predicate TelescopesUpTo(m: u64) {
    forall a: u64, b: u64, c: u64 :: a <= b <= c <= m ==> MemoryCost(a, b) + MemoryCost(b, c) == MemoryCost(a, c)
  }

  // And exactly up to there a growth costs the same in two steps as at once: from nothing to one byte beyond,
  // the way over the largest priced size costs more.
  lemma MemoryCostTelescopesIff(m: u64)
    ensures TelescopesUpTo(m) <==> m <= MAX_PRICED_SIZE
  {
    hide MemoryCost;
    if m <= MAX_PRICED_SIZE {
      forall a: u64, b: u64, c: u64 | a <= b <= c <= m ensures MemoryCost(a, b) + MemoryCost(b, c) == MemoryCost(a, c) {
        MemoryCostTelescopes(a, b, c);
      }
    } else {
      TwoStepsCostMore();
    }
  }

  lemma TwoStepsCostMore()
    ensures MemoryCost(0, MAX_PRICED_SIZE) + MemoryCost(MAX_PRICED_SIZE, MAX_PRICED_SIZE + 1) >
            MemoryCost(0, MAX_PRICED_SIZE + 1)
  {
    hide ExpansionCost;
    MemoryCostWraps();
    assert ExpansionCost(0) == 0 by { FirstBytesAreFree(); }
  }

  lemma FirstBytesAreFree()
    ensures ExpansionCost(0) == 0
  {
  }

  // ---------- The meter object ----------

  class GasMeter {
    const limit: u64
    var used: u64
    var refund: u64

    ghost function View(): Meter
      reads this
    {
      Meter(limit, used, refund)
    }

    constructor (limit: u64)
      ensures View() == Meter(limit, 0, 0)
    {
      this.limit, used, refund := limit, 0, 0;
    }

    method Consume(amount: nat) returns (ok: bool)
      modifies this`used
      ensures View() == Charge(old(View()), amount)
      ensures ok <==> Fits(old(used), amount, limit)
    {
      var next := SatAdd(used, amount);
      if next > limit {
        used := limit;
        return false;
      }
      used := next;
      return true;
    }

    method AddRefund(amount: u64)
      modifies this`refund
      ensures refund == SatAdd(old(refund), amount)
    {
      refund := SatAdd(refund, amount);
    }

    method MakeSubMeter(request: u64) returns (sub: GasMeter)
      ensures fresh(sub) && sub.View() == SubMeter(View(), request)
    {
      var available := if used <= limit then limit - used else 0;
      var most := available - available / 64;
      sub := new GasMeter(if request <= most then request else most);
    }

    method TakeBack(sub: GasMeter)
      requires sub != this
      modifies this
      ensures View() == ReturnGas(old(View()), old(sub.View()))
    {
      refund := SatAdd(refund, sub.refund);
      var unused := if sub.used <= sub.limit then sub.limit - sub.used else 0;
      used := if used >= unused then used - unused else 0;
    }
  }
}
