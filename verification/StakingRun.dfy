/** Whole runs of the staking program: the vault, the totals, and how long every token stays. */
module StakingRun {
  import opened Integers
  import opened MapSum
  import opened TokenLedger
  import opened Staking

  /** A stake entering the vault, or leaving it after being locked since `since`. */
  datatype Move = In(owner: nat, at: Time, amount: u64) | Out(owner: nat, since: Time, at: Time, amount: u64)

  /** `given` counts what reached the vault in any other way than a stake. */
  datatype World = World(clock: Time, tokens: Tokens, pool: Pool, given: int, log: seq<Move>)

  /** The instructions of the pool, the clock, and what anybody else may do to the token accounts. */
  datatype Action =
    | Tick(secs: nat)
    | DoStake(user: nat, from: Account, amount: u64, kind: Kind)
    | DoUnstake(user: nat, to: Account)
    | DoLock(key: VoucherKey, from: Account, amount: u64, lockSecs: i64)
    | DoRedeem(key: VoucherKey, to: Account)
    | DoAccrue(user: nat)
    | DoClaim(user: nat, to: Account)
    | OutsideMint(signer: Key, to: Account, amount: u64)
    | OutsideTransfer(signer: Key, from: Account, to: Account, amount: u64)
    | OutsideBurn(signer: Key, from: Account, amount: u64)

  function Gift(to: Account, amount: int): int { if to == StakeVault then amount else 0 }

  function Outside(w: World, signer: Key, t: Option<Tokens>, gift: int): World {
    if signer == StakingAuthority || t.None? then w else w.(tokens := t.value, given := w.given + gift)
  }

  /** A failed instruction changes nothing. */
  function Step(w: World, a: Action): World {
    match a
    case Tick(n) => if w.clock + n < 0x4000_0000_0000_0000 then w.(clock := w.clock + n) else w
    case DoStake(u, from, n, kind) =>
      (match Stake(w.pool, w.tokens, u, from, w.clock, n, kind)
       case Ok(x) => w.(pool := x.0, tokens := x.1, log := w.log + [In(u, w.clock, n)])
       case Err(_) => w)
    case DoUnstake(u, to) =>
      (match Unstake(w.pool, w.tokens, u, to, w.clock)
       case Ok(x) => Paid(w, x.0, x.1, to, Out(u, w.pool.positions[u].stakedAt, w.clock, w.pool.positions[u].amount))
       case Err(_) => w)
    case DoLock(k, from, n, secs) =>
      (match LockForDiscount(w.pool, w.tokens, k, from, w.clock, n, secs)
       case Ok(x) => w.(pool := x.0, tokens := x.1, log := w.log + [In(k.owner, w.clock, n)])
       case Err(_) => w)
    case DoRedeem(k, to) =>
      (match Redeem(w.pool, w.tokens, k, to, w.clock)
       case Ok(x) =>
         var v := w.pool.vouchers[k];
         Paid(w, x.0, x.1, to, Out(k.owner, v.lockedAt, w.clock, v.amount))
       case Err(_) => w)
    case DoAccrue(u) =>
      (match Accrue(w.pool, u, w.clock)
       case Ok(p) => w.(pool := p)
       case Err(_) => w)
    case DoClaim(u, to) =>
      (match ClaimYield(w.pool, w.tokens, u, to)
       case Ok(x) => w.(pool := x.0, tokens := x.1, given := w.given + Gift(to, w.pool.positions[u].unclaimed))
       case Err(_) => w)
    case OutsideMint(s, to, n) => Outside(w, s, w.tokens.MintTo(s, to, n), Gift(to, n))
    case OutsideTransfer(s, from, to, n) => Outside(w, s, w.tokens.Transfer(s, from, to, n), Gift(to, n))
    case OutsideBurn(s, from, n) => Outside(w, s, w.tokens.Burn(s, from, n), 0)
  }

  function Paid(w: World, p: Pool, t: Tokens, to: Account, out: Move): World {
    World(w.clock, t, p, w.given + Gift(to, out.amount), w.log + [out])
  }

  // ---- What is staked ------------------------------------------------------------------------

  /** Which stakes to count, by owner and start. */
  type Pick = (nat, Time) -> bool

  function Everything(): Pick { (owner: nat, at: Time) => true }
  function OwnedBy(user: nat, t: int): Pick { (owner: nat, at: Time) => owner == user && at <= t }

  ghost function PositionShare(kind: Kind): (nat, Position) -> int {
    (owner: nat, p: Position) => if p.kind == kind then p.amount as int else 0
  }
  ghost function PickedPosition(pick: Pick): (nat, Position) -> int {
    (owner: nat, p: Position) => if pick(owner, p.stakedAt) then p.amount as int else 0
  }
  ghost function PickedVoucher(pick: Pick): (VoucherKey, Voucher) -> int {
    (k: VoucherKey, v: Voucher) => if pick(k.owner, v.lockedAt) then v.amount as int else 0
  }
  ghost const FACE: (VoucherKey, Voucher) -> int := (k: VoucherKey, v: Voucher) => v.amount as int

  /** What the picked live positions and vouchers hold. */
  ghost function Live(p: Pool, pick: Pick): int {
    Sum(p.positions, PickedPosition(pick)) + Sum(p.vouchers, PickedVoucher(pick))
  }

  /** What came in, and what left, of the picked stakes. */
  function CameIn(log: seq<Move>, pick: Pick): int {
    if log == [] then 0
    else
      var m := log[|log| - 1];
      CameIn(log[..|log| - 1], pick) + if m.In? && pick(m.owner, m.at) then m.amount else 0
  }
  function WentOut(log: seq<Move>, pick: Pick): int {
    if log == [] then 0
    else
      var m := log[|log| - 1];
      WentOut(log[..|log| - 1], pick) + if m.Out? && pick(m.owner, m.since) then m.amount else 0
  }

  // ---- The invariant -------------------------------------------------------------------------

  ghost predicate PoolOk(p: Pool, clock: int) {
    && p.provider == Sum(p.positions, PositionShare(Provider))
    && p.customer == Sum(p.positions, PositionShare(Customer)) + Sum(p.vouchers, FACE)
    && (forall u :: u in p.positions ==> PositionOk(p.positions[u], clock))
    && (forall k :: k in p.vouchers ==> VoucherOk(p.vouchers[k], clock))
  }
  predicate PositionOk(p: Position, clock: int) { p.amount > 0 && p.stakedAt <= p.lastAccrual <= clock }
  predicate VoucherOk(v: Voucher, clock: int) {
    v.amount > 0 && !v.consumed && v.lockedAt <= clock && v.lockedAt + MIN_STAKE_SECS <= v.lockEnd
  }

  predicate MoveOk(m: Move, clock: int) { m.at <= clock && (m.Out? ==> m.since + MIN_STAKE_SECS <= m.at) }

  /** The vault holds the staked totals, which are the sums over the live accounts, plus the gifts. */
  ghost predicate Inv(w: World) {
    && w.tokens.Valid()
    && PoolOk(w.pool, w.clock)
    && w.given >= 0
    && w.tokens.Balance(StakeVault) == w.pool.provider + w.pool.customer + w.given
    && (forall i :: 0 <= i < |w.log| ==> MoveOk(w.log[i], w.clock))
  }

  ghost predicate Fresh(w: World) {
    w.tokens.Valid() && w.tokens.Balance(StakeVault) == w.given && w.log == []
    && w.pool == Pool(w.pool.yieldBps, 0, 0, map[], map[])
  }

  /** Totals are at least any live stake. */
  lemma TotalsCover(p: Pool, clock: int)
    requires PoolOk(p, clock)
    ensures p.provider >= 0 && p.customer >= 0
    ensures forall u :: u in p.positions ==> p.positions[u].amount <= p.Of(p.positions[u].kind)
    ensures forall k :: k in p.vouchers ==> p.vouchers[k].amount <= p.customer
  {
    SumBounds(p.positions, PositionShare(Provider));
    SumBounds(p.positions, PositionShare(Customer));
    SumBounds(p.vouchers, FACE);
    forall u | u in p.positions ensures p.positions[u].amount <= p.Of(p.positions[u].kind) {
      var pos := p.positions[u];
      assert PositionShare(pos.kind)(u, pos) == pos.amount;
    }
    forall k | k in p.vouchers ensures p.vouchers[k].amount <= p.customer {
      assert FACE(k, p.vouchers[k]) == p.vouchers[k].amount;
    }
  }

  // ---- One account at a time -----------------------------------------------------------------

  lemma OpenPosition(p: Pool, u: nat, pos: Position, clock: int)
    requires PoolOk(p, clock) && u !in p.positions && PositionOk(pos, clock)
    ensures PoolOk(p.Put(pos.kind, p.Of(pos.kind) + pos.amount).(positions := p.positions[u := pos]), clock)
  {
    SumPut(p.positions, PositionShare(Provider), u, pos);
    SumPut(p.positions, PositionShare(Customer), u, pos);
  }

  lemma ClosePosition(p: Pool, u: nat, clock: int)
    requires PoolOk(p, clock) && u in p.positions
    ensures var pos := p.positions[u];
            PoolOk(p.Put(pos.kind, p.Of(pos.kind) - pos.amount).(positions := p.positions - {u}), clock)
  {
    SumTake(p.positions, PositionShare(Provider), u);
    SumTake(p.positions, PositionShare(Customer), u);
  }

  lemma UpdatePosition(p: Pool, u: nat, pos: Position, clock: int)
    requires PoolOk(p, clock) && u in p.positions && PositionOk(pos, clock)
    requires pos.amount == p.positions[u].amount && pos.kind == p.positions[u].kind
    ensures PoolOk(p.(positions := p.positions[u := pos]), clock)
  {
    SumPut(p.positions, PositionShare(Provider), u, pos);
    SumPut(p.positions, PositionShare(Customer), u, pos);
  }

  lemma OpenVoucher(p: Pool, k: VoucherKey, v: Voucher, clock: int)
    requires PoolOk(p, clock) && k !in p.vouchers && VoucherOk(v, clock)
    ensures PoolOk(p.(customer := p.customer + v.amount, vouchers := p.vouchers[k := v]), clock)
  {
    SumPut(p.vouchers, FACE, k, v);
  }

  lemma CloseVoucher(p: Pool, k: VoucherKey, clock: int)
    requires PoolOk(p, clock) && k in p.vouchers
    ensures PoolOk(p.(customer := p.customer - p.vouchers[k].amount, vouchers := p.vouchers - {k}), clock)
  {
    SumTake(p.vouchers, FACE, k);
  }

  // ---- Steps ---------------------------------------------------------------------------------

  lemma StepKeepsInv(w: World, a: Action)
    requires Inv(w)
    ensures Inv(Step(w, a))
  {
    match a
    case Tick(n) =>
    case DoStake(u, from, n, kind) => StakeKeepsInv(w, u, from, n, kind);
    case DoUnstake(u, to) => UnstakeKeepsInv(w, u, to);
    case DoLock(k, from, n, secs) => LockKeepsInv(w, k, from, n, secs);
    case DoRedeem(k, to) => RedeemKeepsInv(w, k, to);
    case DoAccrue(u) => AccrueKeepsInv(w, u);
    case DoClaim(u, to) => ClaimKeepsInv(w, u, to);
    case _ => OutsideKeepsInv(w, a);
  }

  lemma StakeKeepsInv(w: World, u: nat, from: Account, n: u64, kind: Kind)
    requires Inv(w)
    ensures Inv(Step(w, DoStake(u, from, n, kind)))
  {
    if Stake(w.pool, w.tokens, u, from, w.clock, n, kind).Ok? {
      TransferConserves(w.tokens, User(u), from, StakeVault, n);
      OpenPosition(w.pool, u, Position(n, kind, w.clock, w.clock, 0), w.clock);
    }
  }

  lemma UnstakeKeepsInv(w: World, u: nat, to: Account)
    requires Inv(w)
    ensures Inv(Step(w, DoUnstake(u, to)))
  {
    if Unstake(w.pool, w.tokens, u, to, w.clock).Ok? {
      TransferConserves(w.tokens, StakingAuthority, StakeVault, to, w.pool.positions[u].amount);
      ClosePosition(w.pool, u, w.clock);
    }
  }

  lemma LockKeepsInv(w: World, k: VoucherKey, from: Account, n: u64, secs: i64)
    requires Inv(w)
    ensures Inv(Step(w, DoLock(k, from, n, secs)))
  {
    if LockForDiscount(w.pool, w.tokens, k, from, w.clock, n, secs).Ok? {
      TransferConserves(w.tokens, User(k.owner), from, StakeVault, n);
      OpenVoucher(w.pool, k, Voucher(n, w.clock, w.clock + secs, false), w.clock);
    }
  }

  lemma RedeemKeepsInv(w: World, k: VoucherKey, to: Account)
    requires Inv(w)
    ensures Inv(Step(w, DoRedeem(k, to)))
  {
    if Redeem(w.pool, w.tokens, k, to, w.clock).Ok? {
      TransferConserves(w.tokens, StakingAuthority, StakeVault, to, w.pool.vouchers[k].amount);
      CloseVoucher(w.pool, k, w.clock);
    }
  }

  lemma AccrueKeepsInv(w: World, u: nat)
    requires Inv(w)
    ensures Inv(Step(w, DoAccrue(u)))
  {
    if Accrue(w.pool, u, w.clock).Ok? {
      var pos := AccruePosition(w.pool.positions[u], w.pool.yieldBps, w.clock).value;
      assert PositionOk(w.pool.positions[u], w.clock);
      UpdatePosition(w.pool, u, pos, w.clock);
    }
  }

  lemma ClaimKeepsInv(w: World, u: nat, to: Account)
    requires Inv(w)
    ensures Inv(Step(w, DoClaim(u, to)))
  {
    if ClaimYield(w.pool, w.tokens, u, to).Ok? {
      var pos := w.pool.positions[u];
      assert PositionOk(pos, w.clock);
      MintToConserves(w.tokens, StakingAuthority, to, pos.unclaimed);
      UpdatePosition(w.pool, u, pos.(unclaimed := 0), w.clock);
    }
  }

  lemma OutsideKeepsInv(w: World, a: Action)
    requires Inv(w) && (a.OutsideMint? || a.OutsideTransfer? || a.OutsideBurn?)
    ensures Inv(Step(w, a))
  {
    match a
    case OutsideMint(s, to, n) => OutsideMintKeepsInv(w, s, to, n);
    case OutsideTransfer(s, from, to, n) => OutsideTransferKeepsInv(w, s, from, to, n);
    case OutsideBurn(s, from, n) => OutsideBurnKeepsInv(w, s, from, n);
  }

  lemma OutsideMintKeepsInv(w: World, s: Key, to: Account, n: u64)
    requires Inv(w)
    ensures Inv(Step(w, OutsideMint(s, to, n)))
  {
    if w.tokens.MintTo(s, to, n).Some? { MintToConserves(w.tokens, s, to, n); }
  }

  lemma OutsideTransferKeepsInv(w: World, s: Key, from: Account, to: Account, n: u64)
    requires Inv(w)
    ensures Inv(Step(w, OutsideTransfer(s, from, to, n)))
  {
    if w.tokens.Transfer(s, from, to, n).Some? { TransferConserves(w.tokens, s, from, to, n); }
  }

  lemma OutsideBurnKeepsInv(w: World, s: Key, from: Account, n: u64)
    requires Inv(w)
    ensures Inv(Step(w, OutsideBurn(s, from, n)))
  {
    if w.tokens.Burn(s, from, n).Some? { BurnConserves(w.tokens, s, from, n); }
  }

  lemma FreshInv(w: World)
    requires Fresh(w)
    ensures Inv(w)
  {
    BalanceWithinSupply(w.tokens, StakeVault);
  }

  ghost function Run(w: World, actions: seq<Action>): (w': World)
    requires Inv(w)
    ensures Inv(w')
    decreases |actions|, 0
  {
    if actions == [] then w else RunOn(w, actions[..|actions| - 1], actions[|actions| - 1])
  }

  /** One action after a run. */
  ghost function RunOn(w: World, actions: seq<Action>, a: Action): (w': World)
    requires Inv(w)
    ensures Inv(w')
    decreases |actions|, 1
  {
    StepKeepsInv(Run(w, actions), a);
    Step(Run(w, actions), a)
  }

  // ---- Every stake is accounted for ----------------------------------------------------------

  ghost predicate Balanced(w: World, pick: Pick) {
    CameIn(w.log, pick) == WentOut(w.log, pick) + Live(w.pool, pick)
  }

  lemma LogMove(log: seq<Move>, m: Move, pick: Pick)
    ensures CameIn(log + [m], pick) == CameIn(log, pick) + if m.In? && pick(m.owner, m.at) then m.amount else 0
    ensures WentOut(log + [m], pick) == WentOut(log, pick) + if m.Out? && pick(m.owner, m.since) then m.amount else 0
  {
    assert (log + [m])[..|log|] == log;
  }

  lemma StepKeepsBalanced(w: World, a: Action, pick: Pick)
    requires Inv(w) && Balanced(w, pick)
    ensures Balanced(Step(w, a), pick)
  {
    match a
    case DoStake(u, from, n, kind) => StakeKeepsBalanced(w, u, from, n, kind, pick);
    case DoUnstake(u, to) => UnstakeKeepsBalanced(w, u, to, pick);
    case DoLock(k, from, n, secs) => LockKeepsBalanced(w, k, from, n, secs, pick);
    case DoRedeem(k, to) => RedeemKeepsBalanced(w, k, to, pick);
    case DoAccrue(u) =>
      var result := Accrue(w.pool, u, w.clock);
      if result.Ok? { LiveAfterUpdate(w.pool, result.value, u, pick); }
    case DoClaim(u, to) =>
      var result := ClaimYield(w.pool, w.tokens, u, to);
      if result.Ok? { LiveAfterUpdate(w.pool, result.value.0, u, pick); }
    case _ =>
  }

  lemma PutAndTake<K, V>(m: map<K, V>, k: K, v: V)
    requires k !in m
    ensures m[k := v] - {k} == m
  {}

  lemma StakeKeepsBalanced(w: World, u: nat, from: Account, n: u64, kind: Kind, pick: Pick)
    requires Balanced(w, pick)
    ensures Balanced(Step(w, DoStake(u, from, n, kind)), pick)
  {
    var result := Stake(w.pool, w.tokens, u, from, w.clock, n, kind);
    if result.Ok? {
      var pos := Position(n, kind, w.clock, w.clock, 0);
      PutAndTake(w.pool.positions, u, pos);
      LiveWithPosition(w.pool, result.value.0, u, pos, pick);
      MoveKeepsBalanced(w.log, w.pool, result.value.0, In(u, w.clock, n), pick);
    }
  }

  lemma UnstakeKeepsBalanced(w: World, u: nat, to: Account, pick: Pick)
    requires Balanced(w, pick)
    ensures Balanced(Step(w, DoUnstake(u, to)), pick)
  {
    var result := Unstake(w.pool, w.tokens, u, to, w.clock);
    if result.Ok? {
      var pos := w.pool.positions[u];
      LiveWithPosition(result.value.0, w.pool, u, pos, pick);
      MoveKeepsBalanced(w.log, w.pool, result.value.0, Out(u, pos.stakedAt, w.clock, pos.amount), pick);
    }
  }

  lemma LockKeepsBalanced(w: World, k: VoucherKey, from: Account, n: u64, secs: i64, pick: Pick)
    requires Balanced(w, pick)
    ensures Balanced(Step(w, DoLock(k, from, n, secs)), pick)
  {
    var result := LockForDiscount(w.pool, w.tokens, k, from, w.clock, n, secs);
    if result.Ok? {
      var v := Voucher(n, w.clock, w.clock + secs, false);
      PutAndTake(w.pool.vouchers, k, v);
      LiveWithVoucher(w.pool, result.value.0, k, v, pick);
      MoveKeepsBalanced(w.log, w.pool, result.value.0, In(k.owner, w.clock, n), pick);
    }
  }

  lemma RedeemKeepsBalanced(w: World, k: VoucherKey, to: Account, pick: Pick)
    requires Balanced(w, pick)
    ensures Balanced(Step(w, DoRedeem(k, to)), pick)
  {
    var result := Redeem(w.pool, w.tokens, k, to, w.clock);
    if result.Ok? {
      var v := w.pool.vouchers[k];
      LiveWithVoucher(result.value.0, w.pool, k, v, pick);
      MoveKeepsBalanced(w.log, w.pool, result.value.0, Out(k.owner, v.lockedAt, w.clock, v.amount), pick);
    }
  }

  lemma MoveKeepsBalanced(log: seq<Move>, p: Pool, p': Pool, m: Move, pick: Pick)
    requires CameIn(log, pick) == WentOut(log, pick) + Live(p, pick)
    requires Live(p', pick) == Live(p, pick)
             + (if m.In? && pick(m.owner, m.at) then m.amount else 0)
             - (if m.Out? && pick(m.owner, m.since) then m.amount else 0)
    ensures CameIn(log + [m], pick) == WentOut(log + [m], pick) + Live(p', pick)
  {
    LogMove(log, m, pick);
  }

  /** `p'` is `p` with one more position. */
  lemma LiveWithPosition(p: Pool, p': Pool, u: nat, pos: Position, pick: Pick)
    requires u in p'.positions && p'.positions[u] == pos && p.positions == p'.positions - {u}
    requires p'.vouchers == p.vouchers
    ensures Live(p', pick) == Live(p, pick) + if pick(u, pos.stakedAt) then pos.amount else 0
  {
    SumTake(p'.positions, PickedPosition(pick), u);
  }

  lemma LiveWithVoucher(p: Pool, p': Pool, k: VoucherKey, v: Voucher, pick: Pick)
    requires k in p'.vouchers && p'.vouchers[k] == v && p.vouchers == p'.vouchers - {k}
    requires p'.positions == p.positions
    ensures Live(p', pick) == Live(p, pick) + if pick(k.owner, v.lockedAt) then v.amount else 0
  {
    SumTake(p'.vouchers, PickedVoucher(pick), k);
  }

  /** Yield leaves the stake itself alone. */
  lemma LiveAfterUpdate(p: Pool, p': Pool, u: nat, pick: Pick)
    requires u in p.positions && u in p'.positions && p'.vouchers == p.vouchers
    requires p'.positions == p.positions[u := p'.positions[u]]
    requires p'.positions[u].amount == p.positions[u].amount && p'.positions[u].stakedAt == p.positions[u].stakedAt
    ensures Live(p', pick) == Live(p, pick)
  {
    SumPut(p.positions, PickedPosition(pick), u, p'.positions[u]);
  }

  /** In every run, for any choice of stakes by owner and start: what came in is what went out plus
      what is still held. */
  lemma {:induction false} StakesBalance(w: World, actions: seq<Action>, pick: Pick)
    requires Fresh(w) && Inv(w)
    ensures Balanced(Run(w, actions), pick)
  {
    if actions != [] {
      StakesBalance(w, actions[..|actions| - 1], pick);
      StepKeepsBalanced(Run(w, actions[..|actions| - 1]), actions[|actions| - 1], pick);
    }
  }

  lemma LiveIsNat(p: Pool, clock: int, pick: Pick)
    requires PoolOk(p, clock)
    ensures Live(p, pick) >= 0
  {
    forall u | u in p.positions ensures PickedPosition(pick)(u, p.positions[u]) >= 0 {
      assert PositionOk(p.positions[u], clock);
    }
    forall k | k in p.vouchers ensures PickedVoucher(pick)(k, p.vouchers[k]) >= 0 {
      assert VoucherOk(p.vouchers[k], clock);
    }
    SumBounds(p.positions, PickedPosition(pick));
    SumBounds(p.vouchers, PickedVoucher(pick));
  }

  /** What `owner` had taken out of the vault by time `t`. */
  function TakenBy(log: seq<Move>, owner: nat, t: int): int {
    if log == [] then 0
    else
      var m := log[|log| - 1];
      TakenBy(log[..|log| - 1], owner, t) + if m.Out? && m.owner == owner && m.at <= t then m.amount else 0
  }

  /** What `owner` had put in by time `t`. */
  function PutBy(log: seq<Move>, owner: nat, t: int): int {
    CameIn(log, OwnedBy(owner, t))
  }

  /** No token leaves before it has been locked for 30 days: at any time, what an owner has taken out
      is at most what that owner had put in 30 days earlier. */
  lemma LockedThirtyDays(w: World, actions: seq<Action>, owner: nat, t: int)
    requires Fresh(w) && Inv(w)
    ensures TakenBy(Run(w, actions).log, owner, t) <= PutBy(Run(w, actions).log, owner, t - MIN_STAKE_SECS)
  {
    var w' := Run(w, actions);
    var pick := OwnedBy(owner, t - MIN_STAKE_SECS);
    StakesBalance(w, actions, pick);
    LiveIsNat(w'.pool, w'.clock, pick);
    TakenWereOld(w'.log, owner, t, w'.clock);
  }

  lemma {:induction false} TakenWereOld(log: seq<Move>, owner: nat, t: int, clock: int)
    requires forall i :: 0 <= i < |log| ==> MoveOk(log[i], clock)
    ensures TakenBy(log, owner, t) <= WentOut(log, OwnedBy(owner, t - MIN_STAKE_SECS))
  {
    if log != [] {
      TakenWereOld(log[..|log| - 1], owner, t, clock);
      assert MoveOk(log[|log| - 1], clock);
    }
  }

  // ---- The vault is never short --------------------------------------------------------------

  /** In every interleaving the vault holds the two totals plus what was sent to it otherwise, and the
      totals are what the live positions and vouchers hold. */
  lemma VaultHoldsStakes(w: World, actions: seq<Action>)
    requires Fresh(w)
    ensures Inv(w)
    ensures var w' := Run(w, actions);
            && w'.tokens.Balance(StakeVault) == w'.pool.provider + w'.pool.customer + w'.given
            && w'.pool.provider + w'.pool.customer == Live(w'.pool, Everything())
            && w'.given >= 0
  {
    FreshInv(w);
    var w' := Run(w, actions);
    SumSplits(w'.pool.positions);
    SumLeq(w'.pool.vouchers, FACE, PickedVoucher(Everything()));
    SumLeq(w'.pool.vouchers, PickedVoucher(Everything()), FACE);
  }

  lemma {:induction false} SumSplits(m: map<nat, Position>)
    ensures Sum(m, PickedPosition(Everything())) ==
            Sum(m, PositionShare(Provider)) + Sum(m, PositionShare(Customer))
    decreases |m|
  {
    if |m| > 0 {
      var k :| k in m;
      SumTake(m, PickedPosition(Everything()), k);
      SumTake(m, PositionShare(Provider), k);
      SumTake(m, PositionShare(Customer), k);
      SumSplits(m - {k});
    }
  }

  /** A holder is paid exactly when the stake has matured: neither the payout nor the checked
      subtraction of a total can ever fail. */
  lemma MaturedHoldersArePaid(w: World, u: nat, k: VoucherKey, to: Account)
    requires Inv(w)
    ensures Unstake(w.pool, w.tokens, u, to, w.clock).Ok? <==>
            u in w.pool.positions && w.clock >= w.pool.positions[u].stakedAt + MIN_STAKE_SECS
    ensures Redeem(w.pool, w.tokens, k, to, w.clock).Ok? <==>
            k in w.pool.vouchers && w.clock >= w.pool.vouchers[k].lockEnd
  {
    TotalsCover(w.pool, w.clock);
    if u in w.pool.positions { assert PositionOk(w.pool.positions[u], w.clock); }
    if k in w.pool.vouchers { assert VoucherOk(w.pool.vouchers[k], w.clock); }
  }

  /** A stake is accepted exactly when the owner has no position yet and holds the tokens; the checked
      additions of the totals never fail, because the totals are inside the supply. */
  lemma StakesAreAccepted(w: World, u: nat, k: VoucherKey, from: Account, n: u64, kind: Kind, secs: i64)
    requires Inv(w)
    ensures Stake(w.pool, w.tokens, u, from, w.clock, n, kind).Ok? <==>
            u !in w.pool.positions && n > 0 && from == Wallet(u) && n <= w.tokens.Balance(from)
    ensures LockForDiscount(w.pool, w.tokens, k, from, w.clock, n, secs).Ok? <==>
            && k !in w.pool.vouchers && n > 0 && MIN_STAKE_SECS <= secs <= I64_MAX - w.clock
            && from == Wallet(k.owner) && n <= w.tokens.Balance(from)
  {
    RoomInTotals(w, User(u), from, n);
    RoomInTotals(w, User(k.owner), from, n);
  }

  lemma RoomInTotals(w: World, signer: Key, from: Account, n: u64)
    requires Inv(w) && signer.User?
    ensures signer == from.Owner() <==> from == Wallet(signer.id)
    ensures w.tokens.Transfer(signer, from, StakeVault, n).Some? ==>
              w.pool.provider + n <= U64_MAX && w.pool.customer + n <= U64_MAX
  {
    TotalsCover(w.pool, w.clock);
    if w.tokens.Transfer(signer, from, StakeVault, n).Some? {
      TransferConserves(w.tokens, signer, from, StakeVault, n);
      BalanceWithinSupply(w.tokens.Transfer(signer, from, StakeVault, n).value, StakeVault);
    }
  }

  // ---- What one operation promises the next --------------------------------------------------

  lemma LaterInv(w: World, t: Time)
    requires Inv(w) && w.clock <= t
    ensures Inv(w.(clock := t))
  {}

  /** A position just opened can be closed exactly from 30 days on, to any account. */
  lemma StakeMatures(w: World, u: nat, from: Account, n: u64, kind: Kind, to: Account, t: Time)
    requires Inv(w) && Stake(w.pool, w.tokens, u, from, w.clock, n, kind).Ok? && w.clock <= t
    ensures var (p, tokens) := Stake(w.pool, w.tokens, u, from, w.clock, n, kind).value;
            Unstake(p, tokens, u, to, t).Ok? <==> t >= w.clock + MIN_STAKE_SECS
  {
    var w' := Step(w, DoStake(u, from, n, kind));
    StakeKeepsInv(w, u, from, n, kind);
    LaterInv(w', t);
    MaturedHoldersArePaid(w'.(clock := t), u, VoucherKey(0, 0), to);
  }

  /** A voucher just opened can be redeemed exactly from the end of its lock on. */
  lemma VoucherMatures(w: World, k: VoucherKey, from: Account, n: u64, secs: i64, to: Account, t: Time)
    requires Inv(w) && LockForDiscount(w.pool, w.tokens, k, from, w.clock, n, secs).Ok? && w.clock <= t
    ensures var (p, tokens) := LockForDiscount(w.pool, w.tokens, k, from, w.clock, n, secs).value;
            Redeem(p, tokens, k, to, t).Ok? <==> t >= w.clock + secs
  {
    var w' := Step(w, DoLock(k, from, n, secs));
    LockKeepsInv(w, k, from, n, secs);
    LaterInv(w', t);
    MaturedHoldersArePaid(w'.(clock := t), 0, k, to);
  }

  lemma UnstakePays(w: World, u: nat, to: Account)
    requires Inv(w) && to != StakeVault
    ensures var r := Unstake(w.pool, w.tokens, u, to, w.clock);
            r.Ok? ==> r.value.1.Balance(to) == w.tokens.Balance(to) + w.pool.positions[u].amount
  {
    if Unstake(w.pool, w.tokens, u, to, w.clock).Ok? {
      TransferConserves(w.tokens, StakingAuthority, StakeVault, to, w.pool.positions[u].amount);
    }
  }

  lemma RedeemPays(w: World, k: VoucherKey, to: Account)
    requires Inv(w) && to != StakeVault
    ensures var r := Redeem(w.pool, w.tokens, k, to, w.clock);
            r.Ok? ==> r.value.1.Balance(to) == w.tokens.Balance(to) + w.pool.vouchers[k].amount
  {
    if Redeem(w.pool, w.tokens, k, to, w.clock).Ok? {
      TransferConserves(w.tokens, StakingAuthority, StakeVault, to, w.pool.vouchers[k].amount);
    }
  }

  /** The whole stake reaches the recipient; a claim mints exactly the unclaimed yield, once. */
  lemma HoldersGetTheirDue(w: World, u: nat, k: VoucherKey, to: Account)
    requires Inv(w) && to != StakeVault
    ensures var r := Unstake(w.pool, w.tokens, u, to, w.clock);
            r.Ok? ==> r.value.1.Balance(to) == w.tokens.Balance(to) + w.pool.positions[u].amount
    ensures var r := Redeem(w.pool, w.tokens, k, to, w.clock);
            r.Ok? ==> r.value.1.Balance(to) == w.tokens.Balance(to) + w.pool.vouchers[k].amount
    ensures var r := ClaimYield(w.pool, w.tokens, u, to);
            r.Ok? ==> r.value.1.supply == w.tokens.supply + w.pool.positions[u].unclaimed
                      && ClaimYield(r.value.0, r.value.1, u, to) == Result.Err(NothingToClaim)
  {
    UnstakePays(w, u, to);
    RedeemPays(w, k, to);
  }
}
