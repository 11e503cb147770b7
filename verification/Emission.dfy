/** The block reward schedule of `config.rs`. */
module Emission {
  import opened Ints
  import opened Arithmetic

  const UNITS_PER_FRY := 1_000_000_000_000_000_000
  const MAINNET_REWARD: u128 := 50 * UNITS_PER_FRY
  const MAINNET_INTERVAL: u64 := 2_100_000
  const MAINNET_MAX_SUPPLY: u128 := 210_000_000 * UNITS_PER_FRY
  const TESTNET_REWARD: u128 := 100 * UNITS_PER_FRY
  const TESTNET_INTERVAL: u64 := 100_000
  const TESTNET_MAX_SUPPLY: u128 := 1_000_000_000 * UNITS_PER_FRY

  // The reward of an era; a right shift by the number of halvings, and nothing from the 64th on.
  function EraReward(initial: u128, halvings: nat): (r: u128)
    ensures r <= initial
  {
    if halvings >= 64 then 0 else Quotient(initial, Pow2(halvings))
  }

  function Era(height: nat, interval: nat): nat
    requires interval > 0
  {
    height / interval
  }

  function BlockReward(initial: u128, interval: u64, height: u64): u128
    requires interval > 0
  {
    EraReward(initial, Era(height, interval))
  }

  // All rewards below a height.
  function Issued(initial: u128, interval: u64, height: u64): nat
    requires interval > 0
  {
    if height == 0 then 0 else Issued(initial, interval, height - 1) + BlockReward(initial, interval, height - 1)
  }

  // The rewards of one block from each of the first eras.
  function EraSum(initial: u128, eras: nat): nat {
    if eras == 0 then 0 else EraSum(initial, eras - 1) + EraReward(initial, eras - 1)
  }

  lemma HalvesEachEra(initial: u128, era: nat)
    ensures 2 * EraReward(initial, era + 1) <= EraReward(initial, era)
  {
    if era + 1 < 64 {
      var p := Pow2(era);
      assert Pow2(era + 1) == 2 * p;
      DivTwice(initial, p, 2);
    }
  }

  lemma {:induction false} RewardsFall(initial: u128, a: nat, b: nat)
    requires a <= b
    ensures EraReward(initial, a) >= EraReward(initial, b)
    decreases b
  {
    if a < b {
      RewardsFall(initial, a, b - 1);
      HalvesEachEra(initial, b - 1);
    }
  }

  // A later block never earns more.
  lemma RewardNeverRises(initial: u128, interval: u64, low: u64, high: u64)
    requires interval > 0 && low <= high
    ensures BlockReward(initial, interval, low) >= BlockReward(initial, interval, high)
  {
    DivGrows(low, high, interval);
    RewardsFall(initial, Era(low, interval), Era(high, interval));
  }

  lemma {:induction false} ErasStayBelowTwice(initial: u128, eras: nat)
    requires initial > 0
    ensures EraSum(initial, eras) < 2 * initial
    ensures eras > 0 ==> EraSum(initial, eras) + EraReward(initial, eras - 1) <= 2 * initial
  {
    if eras == 1 {
      assert Pow2(0) == 1;
      assert EraSum(initial, 0) == 0;
    } else if eras > 1 {
      ErasStayBelowTwice(initial, eras - 1);
      HalvesEachEra(initial, eras - 2);
    }
  }

  function Part(height: nat, interval: nat): (r: nat)
    requires interval > 0
    ensures r < interval
  {
    height % interval
  }

  // Whole eras and a part of the next one.
  function ByEras(initial: u128, interval: nat, eras: nat, part: nat): nat {
    interval * EraSum(initial, eras) + part * EraReward(initial, eras)
  }

  lemma OneMoreBlock(initial: u128, interval: nat, eras: nat, part: nat)
    requires part < interval
    ensures ByEras(initial, interval, eras, part + 1) ==
            ByEras(initial, interval, eras, part) + EraReward(initial, eras)
    ensures ByEras(initial, interval, eras + 1, 0) == ByEras(initial, interval, eras, interval)
  {
    hide EraReward;
  }

  lemma {:induction false} IssuedByEras(initial: u128, interval: u64, height: u64)
    requires interval > 0
    ensures Issued(initial, interval, height) ==
            ByEras(initial, interval, Era(height, interval), Part(height, interval))
  {
    hide ByEras, EraReward, Era, Part;
    if height == 0 {
      NothingYet(initial, interval);
    } else {
      IssuedByEras(initial, interval, height - 1);
      OneMoreBlock(initial, interval, Era(height - 1, interval), Part(height - 1, interval));
      NextDivMod(height, interval);
    }
  }

  lemma NothingYet(initial: u128, interval: nat)
    requires interval > 0
    ensures ByEras(initial, interval, Era(0, interval), Part(0, interval)) == 0
  {
  }

  lemma NextDivMod(height: nat, interval: nat)
    requires height > 0 && interval > 0
    ensures var q, r := Era(height - 1, interval), Part(height - 1, interval);
            if r + 1 < interval then Era(height, interval) == q && Part(height, interval) == r + 1
            else Era(height, interval) == q + 1 && Part(height, interval) == 0
  {
    var q, r := (height - 1) / interval, (height - 1) % interval;
    assert height - 1 == q * interval + r;
    if r + 1 < interval {
      DivModUnique(height, q, interval, r + 1);
    } else {
      DivModUnique(height, q + 1, interval, 0);
    }
  }

  lemma PartOfAnEra(initial: u128, interval: nat, eras: nat, part: nat)
    requires part <= interval
    ensures ByEras(initial, interval, eras, part) <= interval * EraSum(initial, eras + 1)
  {
    hide EraReward;
    MulGrows(part, interval, EraReward(initial, eras));
    Distribute(interval, EraSum(initial, eras), EraReward(initial, eras));
  }

  lemma Distribute(m: nat, a: nat, b: nat)
    ensures m * (a + b) == m * a + m * b
  {
  }

  // At every height less than twice the initial reward times the interval has been issued.
  lemma IssuedBelowTwiceFirstEra(initial: u128, interval: u64, height: u64)
    requires initial > 0 && interval > 0
    ensures Issued(initial, interval, height) < 2 * initial * interval
  {
    hide ByEras, EraSum, EraReward, Issued, Era, Part;
    var q := Era(height, interval);
    IssuedByEras(initial, interval, height);
    PartOfAnEra(initial, interval, q, Part(height, interval));
    ErasStayBelowTwice(initial, q + 1);
    MulGrowsStrictly(EraSum(initial, q + 1), 2 * initial, interval);
  }

  // So neither network ever reaches its maximum supply.
  lemma SupplyNeverReached(height: u64)
    ensures Issued(MAINNET_REWARD, MAINNET_INTERVAL, height) < MAINNET_MAX_SUPPLY
    ensures Issued(TESTNET_REWARD, TESTNET_INTERVAL, height) < TESTNET_MAX_SUPPLY
  {
    IssuedBelowTwiceFirstEra(MAINNET_REWARD, MAINNET_INTERVAL, height);
    IssuedBelowTwiceFirstEra(TESTNET_REWARD, TESTNET_INTERVAL, height);
  }
}
