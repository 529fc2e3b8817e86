/** The halving curve of contracts/programs/emission/src/lib.rs: the per-second rate, the budget
    of a window as the program computes it, and the relation between the two. */
module HalvingCurve {
  import opened Integers

  // Literals, because the proofs multiply by them.
  const HALVING_PERIOD_SECS := 63_115_200 // 365 * 86_400 * 2 + 86_400 / 2
  const SECS_PER_YEAR := 31_536_000 // 365 * 86_400
  const YEAR1_EMISSION_RAW := 50_000_000_000_000_000 // 50M $GRID at 9 decimals
  const MAX_HALVINGS := 5

  /** What the whole curve pays out over its ten years, in raw units. */
  const LIFETIME_BUDGET := 193_882_705_479_452_052

  /** `YEAR1_EMISSION_RAW >> h` */
  function Rate(h: nat): (r: nat)
    requires h < MAX_HALVINGS
  {
    if h == 0 then YEAR1_EMISSION_RAW else Rate(h - 1) / 2
  }

  // ---- The rate, second by second -----------------------------------------------------------

  /** The documented curve: `x` seconds after TGE, halved once per elapsed period, 0 after five. */
  function RateAt(x: int): nat {
    if x < 0 || x / HALVING_PERIOD_SECS >= MAX_HALVINGS then 0 else Rate(x / HALVING_PERIOD_SECS)
  }

  /** Sum of the rate over every second of `[x, y)`. */
  ghost function Integral(x: int, y: int): nat
    decreases y - x
  {
    if x >= y then 0 else Integral(x, y - 1) + RateAt(y - 1)
  }

  /** `x` seconds after TGE the u32 cast of the halving count wraps round into a live period. */
  predicate Wraps(x: int) {
    x / HALVING_PERIOD_SECS >= MAX_HALVINGS && AsU32(x / HALVING_PERIOD_SECS) < MAX_HALVINGS
  }

  /** `annual_emission_for`; None is the arithmetic abort of `now - tge_unix`. */
  function AnnualEmissionFor(now: i64, tge: i64): Option<nat> {
    if now < tge then Some(0)
    else if now - tge > I64_MAX then None
    else
      var halvings := AsU32((now - tge) / HALVING_PERIOD_SECS);
      if halvings >= MAX_HALVINGS then Some(0) else Some(Rate(halvings))
  }

  /** The view function agrees with the documented curve exactly when the cast does not wrap. */
  lemma AnnualEmissionMeetsCurve(now: i64, tge: i64)
    requires now - tge <= I64_MAX
    ensures AnnualEmissionFor(now, tge) == Some(RateAt(now - tge)) <==> !Wraps(now - tge)
    ensures now - tge < 0x1_0000_0000 * HALVING_PERIOD_SECS ==> !Wraps(now - tge)
  {
    RatesArePositive();
  }

  lemma RatesArePositive()
    ensures Rate(0) == 50_000_000_000_000_000 && Rate(1) == 25_000_000_000_000_000
    ensures Rate(2) == 12_500_000_000_000_000 && Rate(3) == 6_250_000_000_000_000
    ensures Rate(4) == 3_125_000_000_000_000
    ensures forall h: nat :: h < MAX_HALVINGS ==> Rate(h) > 0
  {
    assert Rate(1) == 25_000_000_000_000_000;
    assert Rate(2) == 12_500_000_000_000_000;
    assert Rate(3) == 6_250_000_000_000_000;
    assert Rate(4) == 3_125_000_000_000_000;
    forall h: nat | h < MAX_HALVINGS ensures Rate(h) > 0 {
      assert h == 0 || h == 1 || h == 2 || h == 3 || h == 4;
    }
  }

  // ---- The budget, slice by slice -----------------------------------------------------------

  /** Seconds of `[x, y)` that lie in halving period `h`. */
  function Overlap(h: nat, x: int, y: int): nat {
    Max(0, Min(y, (h + 1) * HALVING_PERIOD_SECS) - Max(x, h * HALVING_PERIOD_SECS))
  }

  function Slice(h: nat, x: int, y: int): nat
    requires h < MAX_HALVINGS
  {
    Emitted(h, Overlap(h, x, y)) / SECS_PER_YEAR
  }

  /** `Rate(h) * secs`, with the five rates as literals. */
  function Emitted(h: nat, secs: nat): nat
    requires h < MAX_HALVINGS
  {
    match h
    case 0 => 50_000_000_000_000_000 * secs
    case 1 => 25_000_000_000_000_000 * secs
    case 2 => 12_500_000_000_000_000 * secs
    case 3 => 6_250_000_000_000_000 * secs
    case _ => 3_125_000_000_000_000 * secs
  }

  lemma EmittedIsRate(h: nat, secs: nat)
    requires h < MAX_HALVINGS
    ensures Emitted(h, secs) == Rate(h) * secs
  {
    RatesArePositive();
    assert h == 0 || h == 1 || h == 2 || h == 3 || h == 4;
  }

  /** Budget of `[x, y)`, both in seconds after TGE: every period rounded down on its own. */
  function Curve(x: int, y: int): nat { Slices(MAX_HALVINGS, x, y) }

  /** The first `n` of them. */
  function Slices(n: nat, x: int, y: int): nat
    requires n <= MAX_HALVINGS
  {
    if n == 0 then 0 else Slices(n - 1, x, y) + Slice(n - 1, x, y)
  }

  lemma CurveIsSlices(x: int, y: int)
    ensures Curve(x, y) == Slice(0, x, y) + Slice(1, x, y) + Slice(2, x, y) + Slice(3, x, y) + Slice(4, x, y)
  {
    assert Slices(0, x, y) == 0;
    assert Slices(1, x, y) == Slices(0, x, y) + Slice(0, x, y);
    assert Slices(2, x, y) == Slices(1, x, y) + Slice(1, x, y);
    assert Slices(3, x, y) == Slices(2, x, y) + Slice(2, x, y);
    assert Slices(4, x, y) == Slices(3, x, y) + Slice(3, x, y);
  }

  /** Number of the last halving period a non-empty window ending `y` seconds after TGE reaches. */
  function LastPeriod(y: int): int
  {
    Min((y - 1) / HALVING_PERIOD_SECS, MAX_HALVINGS - 1)
  }

  // Times are counted from TGE below: a window is `[x, y)`, and `limit` is the largest i64.

  /** The last period that `[x, y)` reaches ends after the largest i64. */
  predicate Aborts(x: int, y: int, limit: int) {
    x < y && x / HALVING_PERIOD_SECS < MAX_HALVINGS &&
    (LastPeriod(y) + 1) * HALVING_PERIOD_SECS > limit
  }

  /** Budget of the window `[x, y)` as the program computes it; None is an arithmetic abort. */
  function BudgetFrom(x: int, y: int, limit: int): Option<nat> {
    if x > I64_MAX || Aborts(x, y, limit) then None
    else if Wraps(x) then Some(U64_MAX)
    else Some(Curve(x, y))
  }

  /** `budget_for_window` for every i64 input: the window is clipped at TGE. */
  function Budget(start: i64, end: i64, tge: i64): Option<nat> {
    if end <= tge || start >= end then Some(0)
    else BudgetFrom(Max(start, tge) - tge, end - tge, I64_MAX - tge)
  }

  /** Curve still ahead at `x`, more than all of it where the cast wraps. */
  function Remaining(x: int): (r: nat) {
    if Wraps(x) then MAX_HALVINGS * HALVING_PERIOD_SECS + 1
    else Max(0, MAX_HALVINGS * HALVING_PERIOD_SECS - x)
  }

  /** The loop of `budget_for_window` from time `x` on, with `total` already accumulated. */
  function Loop(x: nat, y: int, limit: int, total: nat): Option<nat>
    requires total <= U128_MAX
    decreases Remaining(x), 1
  {
    if x >= y then Some(Min(total, U64_MAX))
    else if x > I64_MAX then None
    else LoopIn(AsU32(x / HALVING_PERIOD_SECS), x, y, limit, total)
  }

  /** One turn, in halving period `h`. */
  function LoopIn(h: nat, x: nat, y: int, limit: int, total: nat): Option<nat>
    requires total <= U128_MAX && x < y && h == AsU32(x / HALVING_PERIOD_SECS)
    decreases Remaining(x), 0
  {
    if h >= MAX_HALVINGS then Some(Min(total, U64_MAX))
    else if (h + 1) * HALVING_PERIOD_SECS > limit then None
    else
      var next := Min((h + 1) * HALVING_PERIOD_SECS, y);
      Loop(next, y, limit, AddChunk(total, h, next - x))
  }

  function AddChunk(total: nat, h: nat, dt: int): (r: nat)
    requires h < MAX_HALVINGS
    ensures r <= U128_MAX
  {
    SatAdd128(total, SatMul128(Rate(h), AsU128(dt)) / SECS_PER_YEAR)
  }

  method BudgetForWindow(start: i64, end: i64, tge: i64) returns (budget: Option<nat>)
    ensures budget == Budget(start, end, tge)
  {
    if end <= tge || start >= end { return Some(0); }
    var lo: i64 := Max(start, tge);
    LoopIsBudget(start, end, tge);
    ghost var turns;
    budget, turns := SumSlices(lo, end, tge);
  }

  /** Clipping and counting from TGE. */
  lemma LoopIsBudget(start: i64, end: i64, tge: i64)
    requires tge < end && start < end
    ensures Loop(Max(start, tge) - tge, end - tge, I64_MAX - tge, 0) == Budget(start, end, tge)
  {
    var x: nat, y, limit := Max(start, tge) - tge, end - tge, I64_MAX - tge;
    LoopMeetsBudget(x, y, limit);
    BudgetIsFrom(start, end, tge, x, y, limit);
  }

  lemma BudgetIsFrom(start: i64, end: i64, tge: i64, x: int, y: int, limit: int)
    requires tge < end && start < end
    requires x == Max(start, tge) - tge && y == end - tge && limit == I64_MAX - tge
    ensures Budget(start, end, tge) == BudgetFrom(x, y, limit)
  {}

  /** Halving slices visited from time `x` on. */
  ghost function Turns(x: nat, y: int): nat
    decreases Remaining(x), 1
  {
    if x >= y then 0 else TurnsIn(AsU32(x / HALVING_PERIOD_SECS), x, y)
  }

  ghost function TurnsIn(h: nat, x: nat, y: int): nat
    requires x < y && h == AsU32(x / HALVING_PERIOD_SECS)
    decreases Remaining(x), 0
  {
    if h >= MAX_HALVINGS then 0 else 1 + Turns(Min((h + 1) * HALVING_PERIOD_SECS, y), y)
  }

  /** At most one turn per halving period, and one more when the start wraps. */
  lemma {:induction false} TurnsBounded(x: nat, y: int)
    ensures Turns(x, y) <= if Wraps(x) then MAX_HALVINGS + 1 else Max(0, MAX_HALVINGS - x / HALVING_PERIOD_SECS)
    decreases Remaining(x)
  {
    var h := AsU32(x / HALVING_PERIOD_SECS);
    if x < y && h < MAX_HALVINGS {
      var next := Min((h + 1) * HALVING_PERIOD_SECS, y);
      TurnsBounded(next, y);
      if next == y { assert Turns(next, y) == 0; }
    }
  }

  /** The while loop of `budget_for_window`, which turns once per slice: at most five times, and once
      more when the start wraps. */
  method SumSlices(lo: i64, end: i64, tge: i64) returns (budget: Option<nat>, ghost turns: nat)
    requires tge <= lo < end
    ensures budget == Loop(lo - tge, end - tge, I64_MAX - tge, 0)
    ensures turns <= if Wraps(lo - tge) then MAX_HALVINGS + 1 else MAX_HALVINGS
    ensures budget.Some? ==> turns == Turns(lo - tge, end - tge)
  {
    turns := 0;
    ghost var x, y, limit := lo - tge, end - tge, I64_MAX - tge;
    ghost var answer, all := Loop(x, y, limit, 0), Turns(x, y);
    TurnsBounded(x, y);
    var total: nat := 0;
    var t: i64 := lo;
    while t < end
      invariant tge <= t <= end && total <= U128_MAX
      invariant x == t - tge && Loop(x, y, limit, total) == answer
      invariant turns + Turns(x, y) == all
      decreases Remaining(x)
    {
      var elapsed := t - tge;
      if elapsed > I64_MAX { return None, turns; }
      var h := AsU32(elapsed / HALVING_PERIOD_SECS);
      LoopStops(x, y, limit, total, h);
      if h >= MAX_HALVINGS { break; }
      var sliceEnd := tge + (h + 1) * HALVING_PERIOD_SECS;
      if sliceEnd > I64_MAX { return None, turns; }
      var chunkEnd: i64 := Min(sliceEnd, end);
      var dt := chunkEnd - t;
      ghost var next := chunkEnd - tge;
      LoopGoes(x, y, limit, total, h, next, dt);
      total := AddChunk(total, h, dt);
      t := chunkEnd;
      x := next;
      turns := turns + 1;
    }
    budget := Some(Min(total, U64_MAX));
  }

  /** The two exits from inside the loop. */
  lemma LoopStops(x: nat, y: int, limit: int, total: nat, h: nat)
    requires x < y && x <= I64_MAX && total <= U128_MAX && h == AsU32(x / HALVING_PERIOD_SECS)
    ensures h >= MAX_HALVINGS ==> Loop(x, y, limit, total) == Some(Min(total, U64_MAX))
    ensures h < MAX_HALVINGS && (h + 1) * HALVING_PERIOD_SECS > limit ==> Loop(x, y, limit, total) == None
    ensures h >= MAX_HALVINGS ==> Turns(x, y) == 0
  {}

  /** One turn from any time goes on with less of the curve ahead. */
  lemma LoopGoes(x: nat, y: int, limit: int, total: nat, h: nat, next: nat, dt: int)
    requires x < y && x <= I64_MAX && total <= U128_MAX
    requires h == AsU32(x / HALVING_PERIOD_SECS) < MAX_HALVINGS && (h + 1) * HALVING_PERIOD_SECS <= limit
    requires next == Min((h + 1) * HALVING_PERIOD_SECS, y) && dt == next - x
    ensures Loop(x, y, limit, total) == Loop(next, y, limit, AddChunk(total, h, dt))
    ensures Turns(x, y) == 1 + Turns(next, y) && Remaining(next) < Remaining(x)
  {}

  /** The end of the period that contains `x`, or of the window if that comes first. */
  function ChunkEnd(x: int, y: int): int { Min((x / HALVING_PERIOD_SECS + 1) * HALVING_PERIOD_SECS, y) }

  /** One turn of the loop from a time that does not wrap: on to the next period, or abort. */
  lemma Turn(x: nat, y: int, limit: int, total: nat)
    requires x < y && total <= U128_MAX && x / HALVING_PERIOD_SECS < MAX_HALVINGS
    ensures var h := x / HALVING_PERIOD_SECS;
            Loop(x, y, limit, total) ==
            if (h + 1) * HALVING_PERIOD_SECS > limit then None
            else Loop(ChunkEnd(x, y), y, limit, AddChunk(total, h, ChunkEnd(x, y) - x))
    ensures x < ChunkEnd(x, y) <= MAX_HALVINGS * HALVING_PERIOD_SECS && !Wraps(ChunkEnd(x, y))
  {}

  /** A window aborts in its current period or later on. */
  lemma AbortsNowOrLater(x: nat, y: int, limit: int)
    requires x < y && x / HALVING_PERIOD_SECS < MAX_HALVINGS
    ensures Aborts(x, y, limit) <==>
            (x / HALVING_PERIOD_SECS + 1) * HALVING_PERIOD_SECS > limit || Aborts(ChunkEnd(x, y), y, limit)
  {}

  /** From a time that does not wrap, the loop adds exactly the rest of the curve: no cast, clamp
      or saturation shows. */
  lemma {:induction false} LoopAddsCurve(x: nat, y: int, limit: int, total: nat)
    requires x <= y && total <= U128_MAX && !Wraps(x) && x <= I64_MAX && !Aborts(x, y, limit)
    ensures Loop(x, y, limit, total) == Some(Min(total + Curve(x, y), U64_MAX))
    decreases MAX_HALVINGS * HALVING_PERIOD_SECS - x
  {
    if x == y || x / HALVING_PERIOD_SECS >= MAX_HALVINGS {
      LoopIsOver(x, y, limit, total);
    } else {
      Turn(x, y, limit, total);
      AbortsNowOrLater(x, y, limit);
      var next, total' := FirstChunk(total, x, y);
      LoopAddsCurve(next, y, limit, total');
    }
  }

  lemma LoopIsOver(x: nat, y: int, limit: int, total: nat)
    requires x <= y && total <= U128_MAX && !Wraps(x) && x <= I64_MAX
    requires x == y || x / HALVING_PERIOD_SECS >= MAX_HALVINGS
    ensures Loop(x, y, limit, total) == Some(Min(total, U64_MAX)) && Curve(x, y) == 0
  {
    if x == y { EmptyWindow(x, y); } else { PastTheCurve(x, y); }
  }

  /** When the last period reached ends after the largest i64, the loop aborts on its way there. */
  lemma {:induction false} LoopAborts(x: nat, y: int, limit: int, total: nat)
    requires total <= U128_MAX && Aborts(x, y, limit) && y - 1 <= limit
    ensures Loop(x, y, limit, total) == None
    decreases MAX_HALVINGS * HALVING_PERIOD_SECS - x
  {
    var h := x / HALVING_PERIOD_SECS;
    Turn(x, y, limit, total);
    AbortsNowOrLater(x, y, limit);
    if (h + 1) * HALVING_PERIOD_SECS <= limit {
      LoopAborts(ChunkEnd(x, y), y, limit, AddChunk(total, h, ChunkEnd(x, y) - x));
    }
  }

  /** A start that wraps saturates the total on the first turn and then walks the whole curve. */
  lemma LoopSaturates(x: nat, y: int, limit: int)
    requires x < y <= limit && Wraps(x) && x <= I64_MAX
    ensures Loop(x, y, limit, 0) == Some(U64_MAX)
  {
    var h := AsU32(x / HALVING_PERIOD_SECS);
    var next := (h + 1) * HALVING_PERIOD_SECS;
    RateBounds(h);
    WrappedChunk(Rate(h), next - x);
    var total := AddChunk(0, h, next - x);
    assert total >= U64_MAX;
    LoopAddsCurve(next, y, limit, total);
  }

  lemma LoopMeetsBudget(x: nat, y: int, limit: int)
    requires x < y <= limit
    ensures Loop(x, y, limit, 0) == BudgetFrom(x, y, limit)
  {
    if x > I64_MAX {
    } else if Aborts(x, y, limit) {
      LoopAborts(x, y, limit, 0);
    } else if Wraps(x) {
      LoopSaturates(x, y, limit);
    } else {
      LoopAddsCurve(x, y, limit, 0);
      CurveBounded(x, y);
    }
  }

  lemma RateBounds(h: nat)
    requires h < MAX_HALVINGS
    ensures 3_125_000_000_000_000 <= Rate(h) <= YEAR1_EMISSION_RAW
  {
    RatesArePositive();
    assert h == 0 || h == 1 || h == 2 || h == 3 || h == 4;
  }

  /** A negative chunk length, cast to u128, makes the product saturate far above u64::MAX. */
  lemma WrappedChunk(rate: nat, dt: int)
    requires rate >= 3_125_000_000_000_000 && -0x8000_0000_0000_0000 <= dt < 0
    ensures SatMul128(rate, AsU128(dt)) / SECS_PER_YEAR >= U64_MAX
  {
    assert AsU128(dt) == dt + U128_MAX + 1;
    assert rate * AsU128(dt) >= 1 * AsU128(dt);
  }

  lemma NoSaturation(rate: nat, dt: nat)
    requires rate <= YEAR1_EMISSION_RAW && dt <= HALVING_PERIOD_SECS
    ensures SatMul128(rate, dt) == rate * dt
    ensures rate * dt <= YEAR1_EMISSION_RAW * HALVING_PERIOD_SECS
  {
    ProductBound(rate, dt, YEAR1_EMISSION_RAW, HALVING_PERIOD_SECS);
  }

  lemma ProductBound(a: nat, b: nat, p: nat, q: nat)
    requires a <= p && b <= q
    ensures 0 <= a * b <= p * q
  {
    assert a * b <= p * b;
    assert p * b <= p * q;
  }

  /** Clipping the window at TGE changes nothing. */
  lemma StartAtGenesis(x: int, y: int)
    ensures Curve(x, y) == Curve(Max(x, 0), y)
  {
    CurveIsSlices(x, y);
    CurveIsSlices(Max(x, 0), y);
    forall h: nat | h < MAX_HALVINGS ensures Overlap(h, x, y) == Overlap(h, Max(x, 0), y) {}
  }

  lemma EmptyWindow(x: int, y: int)
    requires y <= 0 || x >= y
    ensures Curve(x, y) == 0
  {
    CurveIsSlices(x, y);
    forall h: nat | h < MAX_HALVINGS ensures Overlap(h, x, y) == 0 {}
  }

  lemma PastTheCurve(x: int, y: int)
    requires x >= MAX_HALVINGS * HALVING_PERIOD_SECS
    ensures Curve(x, y) == 0
  {
    CurveIsSlices(x, y);
    forall h: nat | h < MAX_HALVINGS ensures Overlap(h, x, y) == 0 {}
  }

  /** The chunk up to the end of the current period (or of the window) splits off unrounded. */
  lemma FirstChunk(total: nat, x: nat, y: nat) returns (next: nat, total': nat)
    requires x < y && x / HALVING_PERIOD_SECS < MAX_HALVINGS && total <= U128_MAX
    ensures next == ChunkEnd(x, y) && total' == AddChunk(total, x / HALVING_PERIOD_SECS, next - x)
    ensures Min(total' + Curve(next, y), U64_MAX) == Min(total + Curve(x, y), U64_MAX)
  {
    var h := x / HALVING_PERIOD_SECS;
    next := ChunkEnd(x, y);
    total' := AddChunk(total, h, next - x);
    var part := Emitted(h, next - x) / SECS_PER_YEAR;
    PlainChunk(total, h, next - x);
    CurveFromPeriod(x, y);
    CappedSum(total, part, Curve(next, y), total');
  }

  /** A chunk within its period is added as it is, up to the saturation of the total. */
  lemma PlainChunk(total: nat, h: nat, dt: nat)
    requires total <= U128_MAX && h < MAX_HALVINGS && dt <= HALVING_PERIOD_SECS
    ensures AddChunk(total, h, dt) == Min(total + Emitted(h, dt) / SECS_PER_YEAR, U128_MAX)
  {
    RateBounds(h);
    NoSaturation(Rate(h), dt);
    EmittedIsRate(h, dt);
  }

  lemma CappedSum(total: nat, part: nat, rest: nat, total': nat)
    requires total' == Min(total + part, U128_MAX)
    ensures Min(total' + rest, U64_MAX) == Min(total + (part + rest), U64_MAX)
  {}

  lemma CurveFromPeriod(x: nat, y: nat)
    requires x < y && x / HALVING_PERIOD_SECS < MAX_HALVINGS
    ensures var h := x / HALVING_PERIOD_SECS;
            var x' := ChunkEnd(x, y);
            Curve(x, y) == Emitted(h, x' - x) / SECS_PER_YEAR + Curve(x', y)
  {
    var x' := ChunkEnd(x, y);
    CurveIsSlices(x, y);
    CurveIsSlices(x', y);
    SliceFromPeriod(0, x, y, x'); SliceFromPeriod(1, x, y, x'); SliceFromPeriod(2, x, y, x');
    SliceFromPeriod(3, x, y, x'); SliceFromPeriod(4, x, y, x');
  }

  lemma SliceFromPeriod(h: nat, x: nat, y: nat, x': nat)
    requires x < y && h < MAX_HALVINGS && x' == ChunkEnd(x, y)
    ensures h != x / HALVING_PERIOD_SECS ==> Slice(h, x, y) == Slice(h, x', y)
    ensures h == x / HALVING_PERIOD_SECS ==>
              Slice(h, x, y) == Emitted(h, x' - x) / SECS_PER_YEAR && Slice(h, x', y) == 0
  {
    if h == x / HALVING_PERIOD_SECS {
      assert Overlap(h, x, y) == x' - x && Overlap(h, x', y) == 0;
    } else {
      assert Overlap(h, x, y) == Overlap(h, x', y);
    }
  }

  // ---- The budget against the second-by-second sum ------------------------------------------

  lemma OverlapsGrow(h: nat, x: int, y: int, z: int)
    requires h < MAX_HALVINGS && x <= y <= z
    ensures Overlap(h, x, y) + Overlap(h, y, z) == Overlap(h, x, z) <= HALVING_PERIOD_SECS
    ensures Slice(h, x, y) + Slice(h, y, z) <= Slice(h, x, z) <= Slice(h, x, y) + Slice(h, y, z) + 1
    ensures Overlap(h, x, y) == 0 || Overlap(h, y, z) == 0 ==>
              Slice(h, x, y) + Slice(h, y, z) == Slice(h, x, z)
  {
    FloorOfSum(Exact(h, x, y), Exact(h, y, z));
  }

  lemma FloorOfSum(a: nat, b: nat)
    ensures a / SECS_PER_YEAR + b / SECS_PER_YEAR <= (a + b) / SECS_PER_YEAR
    ensures (a + b) / SECS_PER_YEAR <= a / SECS_PER_YEAR + b / SECS_PER_YEAR + 1
  {}

  /** Splitting a window never gains and loses at most one raw unit: only the period that
      contains the cut is rounded twice. */
  lemma SplitWindow(x: int, y: int, z: int)
    requires x <= y <= z
    ensures Curve(x, y) + Curve(y, z) == Curve(x, z) || Curve(x, y) + Curve(y, z) == Curve(x, z) - 1
  {
    CurveIsSlices(x, y);
    CurveIsSlices(y, z);
    CurveIsSlices(x, z);
    forall h: nat | h < MAX_HALVINGS && h != y / HALVING_PERIOD_SECS
      ensures Overlap(h, x, y) == 0 || Overlap(h, y, z) == 0 {}
    OverlapsGrow(0, x, y, z); OverlapsGrow(1, x, y, z); OverlapsGrow(2, x, y, z);
    OverlapsGrow(3, x, y, z); OverlapsGrow(4, x, y, z);
  }

  lemma CurveBounded(x: int, y: int)
    ensures Curve(x, y) <= Curve(0, MAX_HALVINGS * HALVING_PERIOD_SECS) == LIFETIME_BUDGET
  {
    CurveIsSlices(x, y);
    SliceBounded(0, x, y); SliceBounded(1, x, y); SliceBounded(2, x, y);
    SliceBounded(3, x, y); SliceBounded(4, x, y);
    WholeCurve();
  }

  lemma SliceBounded(h: nat, x: int, y: int)
    requires h < MAX_HALVINGS
    ensures Slice(h, x, y) <= Emitted(h, HALVING_PERIOD_SECS) / SECS_PER_YEAR
  {
    assert Overlap(h, x, y) <= HALVING_PERIOD_SECS;
  }

  lemma WholeCurve()
    ensures Curve(0, MAX_HALVINGS * HALVING_PERIOD_SECS) == LIFETIME_BUDGET
  {
    CurveIsSlices(0, MAX_HALVINGS * HALVING_PERIOD_SECS);
  }

  predicate Ascending(cuts: seq<int>) { forall i :: 0 < i < |cuts| ==> cuts[i - 1] <= cuts[i] }

  ghost function SumOfCurves(cuts: seq<int>): nat {
    if |cuts| < 2 then 0
    else SumOfCurves(cuts[..|cuts| - 1]) + Curve(cuts[|cuts| - 2], cuts[|cuts| - 1])
  }

  lemma OneMoreEpoch(cuts: seq<int>, y: int, z: int)
    requires |cuts| >= 2 && y == cuts[|cuts| - 2] && z == cuts[|cuts| - 1]
    ensures SumOfCurves(cuts) == SumOfCurves(cuts[..|cuts| - 1]) + Curve(y, z)
  {}

  /** Any partition of a window into n = |cuts| - 1 epochs loses at most n - 1 units, never gains. */
  lemma {:induction false} PartitionWindow(cuts: seq<int>)
    requires |cuts| >= 2 && Ascending(cuts)
    ensures cuts[0] <= cuts[|cuts| - 1]
    ensures SumOfCurves(cuts) <= Curve(cuts[0], cuts[|cuts| - 1]) <= SumOfCurves(cuts) + (|cuts| - 2)
  {
    PartitionOf(cuts, cuts[0], cuts[|cuts| - 1]);
  }

  lemma {:induction false} PartitionOf(cuts: seq<int>, x: int, z: int)
    requires |cuts| >= 2 && Ascending(cuts) && x == cuts[0] && z == cuts[|cuts| - 1]
    ensures x <= z && SumOfCurves(cuts) <= Curve(x, z) <= SumOfCurves(cuts) + (|cuts| - 2)
  {
    var n := |cuts|;
    var y := cuts[n - 2];
    OneMoreEpoch(cuts, y, z);
    if n > 2 {
      PartitionOf(cuts[..n - 1], x, y);
      SplitWindow(x, y, z);
    } else {
      assert SumOfCurves(cuts[..1]) == 0;
    }
  }

  /** A slice before rounding, times the seconds of a year. */
  function Exact(h: nat, x: int, y: int): nat
    requires h < MAX_HALVINGS
  {
    Emitted(h, Overlap(h, x, y))
  }

  /** What period `h` pays in the second that begins at `t`. */
  function Paid(h: nat, t: int): nat
    requires h < MAX_HALVINGS
  {
    if t / HALVING_PERIOD_SECS == h then Rate(h) else 0
  }

  lemma ExactStep(h: nat, x: int, y: int)
    requires h < MAX_HALVINGS && x < y
    ensures Exact(h, x, y) == Exact(h, x, y - 1) + Paid(h, y - 1)
  {
    var inside := if (y - 1) / HALVING_PERIOD_SECS == h then 1 else 0;
    assert Overlap(h, x, y) == Overlap(h, x, y - 1) + inside;
    RatesArePositive();
  }

  lemma OnePeriodPays(t: nat)
    ensures RateAt(t) == Paid(0, t) + Paid(1, t) + Paid(2, t) + Paid(3, t) + Paid(4, t)
  {}

  function ExactSum(x: int, y: int): nat {
    Exact(0, x, y) + Exact(1, x, y) + Exact(2, x, y) + Exact(3, x, y) + Exact(4, x, y)
  }

  lemma ExactSumStep(x: int, y: int)
    requires 0 <= x < y
    ensures ExactSum(x, y) == ExactSum(x, y - 1) + RateAt(y - 1)
  {
    ExactStep(0, x, y); ExactStep(1, x, y); ExactStep(2, x, y);
    ExactStep(3, x, y); ExactStep(4, x, y);
    OnePeriodPays(y - 1);
  }

  /** The integral is the exact (unrounded) sum of the slices. */
  lemma {:induction false} IntegralBySlices(x: int, y: int)
    requires 0 <= x <= y
    ensures Integral(x, y) == ExactSum(x, y)
    decreases y - x
  {
    if x < y {
      IntegralBySlices(x, y - 1);
      ExactSumStep(x, y);
    } else {
      forall h: nat | h < MAX_HALVINGS ensures Overlap(h, x, y) == 0 {}
    }
  }

  /** The slice-wise budget is the second-by-second sum divided by the year, less than 5 units short. */
  lemma CurveRefinesIntegral(x: int, y: int)
    requires 0 <= x <= y
    ensures Curve(x, y) * SECS_PER_YEAR <= Integral(x, y) < (Curve(x, y) + 5) * SECS_PER_YEAR
  {
    CurveIsSlices(x, y);
    IntegralBySlices(x, y);
  }

  /** `budget_for_window` returns the documented budget, to within 5 raw units below, exactly when
      the first second of the clipped window does not wrap the u32 cast. */
  lemma BudgetMeetsCurve(start: i64, end: i64, tge: i64)
    requires tge < end && start < end && Budget(start, end, tge).Some?
    ensures var lo := Max(start, tge) - tge;
            var exact := Integral(lo, end - tge);
            var budget := Budget(start, end, tge).value;
            (budget * SECS_PER_YEAR <= exact < (budget + 5) * SECS_PER_YEAR <==> !Wraps(lo))
  {
    var lo := Max(start, tge) - tge;
    CurveRefinesIntegral(lo, end - tge);
    CurveBounded(lo, end - tge);
  }

  /** Within 2^32 halving periods of TGE, and with TGE in the i64 range's lower half, nothing bites. */
  lemma BudgetInRange(start: i64, end: i64, tge: i64)
    requires 0 <= tge <= I64_MAX / 2 && end - tge < 0x1_0000_0000 * HALVING_PERIOD_SECS
    ensures Budget(start, end, tge) == Some(Curve(start - tge, end - tge))
  {
    if end <= tge || start >= end {
      EmptyWindow(start - tge, end - tge);
    } else {
      var x, y := Max(start, tge) - tge, end - tge;
      InRange(x, y, I64_MAX - tge);
      StartAtGenesis(start - tge, y);
    }
  }

  lemma InRange(x: nat, y: int, limit: int)
    requires x < y < 0x1_0000_0000 * HALVING_PERIOD_SECS && x <= I64_MAX && limit >= MAX_HALVINGS * HALVING_PERIOD_SECS
    ensures BudgetFrom(x, y, limit) == Some(Curve(x, y))
  {}
}
