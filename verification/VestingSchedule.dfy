/** The vesting curve of contracts/programs/vesting/src/lib.rs: four tiers, each a cliff followed by
    a linear release. */
module VestingSchedule {
  import opened Integers

  const EARLY_UNLOCK_COOLDOWN_SECS := 31_536_000 // 365 days

  datatype Tier = Standard | Loyalty | Conviction | Maximum {
    function Cliff(): nat {
      match this
      case Standard => 2_592_000 // 30 days
      case Loyalty => 7_776_000 // 90 days
      case Conviction => 15_552_000 // 180 days
      case Maximum => 31_536_000 // 365 days
    }

    function Linear(): nat {
      match this
      case Standard => 5_184_000 // 60 days
      case Loyalty => 15_552_000 // 180 days
      case Conviction => 31_536_000 // 365 days
      case Maximum => 63_072_000 // 730 days
    }

    /** Seconds from the deposit until everything is unlocked. */
    function Span(): nat { Cliff() + Linear() }
  }

  /** Unlocked part of `amount`, `age` seconds after the deposit. */
  function Vested(amount: nat, age: int, tier: Tier): nat {
    if age < tier.Cliff() then 0
    else if age >= tier.Span() then amount
    else Released(amount, age - tier.Cliff(), tier.Linear())
  }

  /** The linear part: multiplied in u128, cast to u64. */
  function Released(amount: nat, elapsed: nat, linear: nat): nat
    requires linear > 0
  {
    AsU64(amount * elapsed / linear)
  }

  /** `vested_amount` */
  method VestedAmount(amount: u64, depositedAt: Time, now: Time, tier: Tier) returns (v: u64)
    ensures v == Vested(amount, now - depositedAt, tier)
  {
    VestedWithin(amount, now - depositedAt, tier);
    if now < depositedAt + tier.Cliff() { return 0; }
    var end := depositedAt + tier.Cliff() + tier.Linear();
    if now >= end { return amount; }
    var dt := now - depositedAt - tier.Cliff();
    var res := amount * dt / tier.Linear();
    v := AsU64(res);
  }

  lemma ProductMonotone(a: nat, b: nat, a': nat, b': nat)
    requires a <= a' && b <= b'
    ensures a * b <= a' * b'
  {
    assert a * b <= a * b' <= a' * b';
  }

  /** `x / l < q` whenever `x < q * l`: what is needed of division by a variable. */
  lemma QuotientBelow(x: nat, l: nat, q: nat)
    requires 0 < l && x < q * l
    ensures x / l < q
  {
    if q <= x / l { ProductMonotone(q, l, x / l, l); }
  }

  lemma QuotientBounds(a: nat, d: nat, l: nat)
    requires d < l
    ensures 0 <= a * d / l <= a && (a > 0 ==> a * d / l < a)
  {
    ProductMonotone(0, 0, a, d);
    if a > 0 {
      assert a * d < a * l;
      QuotientBelow(a * d, l, a);
    }
  }

  lemma QuotientMonotone(a: nat, d: nat, l: nat, d': nat, l': nat)
    requires d <= d' && 0 < l' <= l
    ensures a * d / l <= a * d' / l'
  {
    var q' := a * d' / l';
    ProductMonotone(a, d, a, d');
    ProductMonotone(q' + 1, l', q' + 1, l);
    assert a * d' < (q' + 1) * l';
    QuotientBelow(a * d, l, q' + 1);
  }

  /** The cast to u64 never bites, nothing vests beyond the amount, and all of it has vested exactly
      when the schedule has ended. */
  lemma VestedWithin(amount: u64, age: int, tier: Tier)
    ensures Vested(amount, age, tier) <= amount
    ensures Vested(amount, age, tier) == amount <==> age >= tier.Span() || amount == 0
  {
    if tier.Cliff() <= age < tier.Span() {
      var d: nat, l: nat := age - tier.Cliff(), tier.Linear();
      ReleasedBounds(amount, d, l);
    }
  }

  lemma ReleasedBounds(amount: u64, d: nat, l: nat)
    requires d < l
    ensures Released(amount, d, l) == amount * d / l <= amount
    ensures amount > 0 ==> Released(amount, d, l) < amount
  {
    QuotientBounds(amount, d, l);
    CastFits(amount * d / l);
  }

  lemma CastFits(q: int)
    requires 0 <= q <= U64_MAX
    ensures AsU64(q) == q
  {}

  lemma VestedInside(amount: u64, age: int, tier: Tier, d: nat, l: nat)
    requires tier.Cliff() <= age < tier.Span() && d == age - tier.Cliff() && l == tier.Linear()
    ensures Vested(amount, age, tier) == amount * d / l
  {
    ReleasedBounds(amount, d, l);
  }

  lemma VestedMonotone(amount: u64, age: int, age': int, tier: Tier)
    requires age <= age'
    ensures Vested(amount, age, tier) <= Vested(amount, age', tier)
  {
    VestedWithin(amount, age, tier);
    if tier.Cliff() <= age && age' < tier.Span() {
      var d, d', l := age - tier.Cliff(), age' - tier.Cliff(), tier.Linear();
      VestedInside(amount, age, tier, d, l);
      VestedInside(amount, age', tier, d', l);
      QuotientMonotone(amount, d, l, d', l);
    }
  }

  /** The documented schedules in days: nothing before the cliff, half of the deposit halfway through the
      linear part, all of it at its end. */
  lemma DocumentedDays(amount: u64, age: int, tier: Tier)
    ensures var (cliff, linear) :=
              match tier
              case Standard => (30, 60)
              case Loyalty => (90, 180)
              case Conviction => (180, 365)
              case Maximum => (365, 730);
            && (age < cliff * 86_400 ==> Vested(amount, age, tier) == 0)
            && (age == cliff * 86_400 + linear * 43_200 ==> Vested(amount, age, tier) == amount / 2)
            && (age >= (cliff + linear) * 86_400 ==> Vested(amount, age, tier) == amount)
  {
    if age == tier.Cliff() + tier.Linear() / 2 {
      VestedInside(amount, age, tier, tier.Linear() / 2, tier.Linear());
    }
  }

  /** The guard of `upgrade_tier`. */
  predicate LocksAtLeast(next: Tier, current: Tier) {
    next.Cliff() >= current.Cliff() && next.Linear() >= current.Linear()
  }

  /** The tier change the guard accepts vests pointwise slower, and any other tier change would vest
      some deposit faster at some time. */
  lemma UpgradeVestsSlower(next: Tier, current: Tier)
    ensures LocksAtLeast(next, current) <==>
            forall amount: u64, age: int :: Vested(amount, age, next) <= Vested(amount, age, current)
  {
    if LocksAtLeast(next, current) {
      forall amount: u64, age: int ensures Vested(amount, age, next) <= Vested(amount, age, current) {
        UpgradeVestsSlowerAt(amount, age, next, current);
      }
    } else {
      assert next.Span() < current.Span();
      VestedWithin(1, next.Span(), next);
      VestedWithin(1, next.Span(), current);
      var age := next.Span();
      assert Vested(1, age, next) > Vested(1, age, current);
    }
  }

  lemma UpgradeVestsSlowerAt(amount: u64, age: int, next: Tier, current: Tier)
    requires LocksAtLeast(next, current)
    ensures Vested(amount, age, next) <= Vested(amount, age, current)
  {
    VestedWithin(amount, age, next);
    if next.Cliff() <= age < current.Span() {
      var d, l, d', l' := age - next.Cliff(), next.Linear(), age - current.Cliff(), current.Linear();
      VestedInside(amount, age, next, d, l);
      VestedInside(amount, age, current, d', l');
      QuotientMonotone(amount, d, l, d', l');
    }
  }
}
