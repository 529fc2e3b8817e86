/** contracts/programs/emission/src/lib.rs: epochs are claimed against the halving curve, minted
    into a vault and paid out from it. */
module Emission {
  import opened Integers
  import opened TokenLedger
  import opened HalvingCurve

  datatype Error =
    | Unauthorized | AccountMissing | Overflow | EpochInFuture | InvalidEpochRange | EpochOutOfOrder
    | BudgetExceeded | EpochFinalized | OverDistribution | TokenError

  datatype EpochClaim = EpochClaim(start: i64, end: i64, totalReward: int, distributed: int, finalized: bool)

  /** Epoch ids are consecutive from 1, so the claim with id `n` is `claims[n - 1]`. */
  datatype Config = Config(billingSigner: Key, tge: i64, epochCounter: int, mintedTotal: int, claims: seq<EpochClaim>)

  function Claim(c: Config, t: Tokens, signer: Key, now: i64, epochId: u64, start: i64, end: i64, reward: u64)
    : Result<(Config, Tokens), Error>
  {
    if signer != c.billingSigner then Err(Unauthorized)
    else if end > now then Err(EpochInFuture)
    else if end <= start then Err(InvalidEpochRange)
    else if c.epochCounter + 1 > U64_MAX then Err(Overflow)
    else if epochId != c.epochCounter + 1 then Err(EpochOutOfOrder)
    else match Budget(start, end, c.tge)
         case None => Err(Overflow)
         case Some(budget) =>
           if reward > budget then Err(BudgetExceeded)
           else match t.MintTo(EmissionAuthority, EmissionVault, reward)
                case None => Err(TokenError)
                case Some(t') =>
                  if c.mintedTotal + reward > U64_MAX then Err(Overflow)
                  else Ok((c.(epochCounter := epochId, mintedTotal := c.mintedTotal + reward,
                             claims := c.claims + [EpochClaim(start, end, reward, 0, false)]), t'))
  }

  function Distribute(c: Config, t: Tokens, signer: Key, epochId: u64, to: Account, amount: u64)
    : Result<(Config, Tokens), Error>
  {
    if signer != c.billingSigner then Err(Unauthorized)
    else if !(1 <= epochId <= |c.claims|) then Err(AccountMissing)
    else
      var claim := c.claims[epochId - 1];
      if claim.finalized then Err(EpochFinalized)
      else if claim.distributed + amount > U64_MAX then Err(Overflow)
      else if claim.distributed + amount > claim.totalReward then Err(OverDistribution)
      else match t.Transfer(EmissionAuthority, EmissionVault, to, amount)
           case None => Err(TokenError)
           case Some(t') =>
             var paid := claim.(distributed := claim.distributed + amount);
             Ok((c.(claims := c.claims[epochId - 1 := paid]), t'))
  }

  function Finalize(c: Config, signer: Key, epochId: u64): Result<Config, Error> {
    if signer != c.billingSigner then Err(Unauthorized)
    else if !(1 <= epochId <= |c.claims|) then Err(AccountMissing)
    else if c.claims[epochId - 1].finalized then Err(EpochFinalized)
    else if c.claims[epochId - 1].totalReward < c.claims[epochId - 1].distributed then Err(Overflow)
    else Ok(c.(claims := c.claims[epochId - 1 := c.claims[epochId - 1].(finalized := true)]))
  }

  /** The `EmissionConfig` account and its `EpochClaim` accounts. */
  class EmissionConfig {
    const ledger: Ledger
    const billingSigner: Key
    const tge: i64
    var epochCounter: int
    var mintedTotal: int
    var claims: seq<EpochClaim>

    function View(): Config
      reads this
    {
      Config(billingSigner, tge, epochCounter, mintedTotal, claims)
    }

    constructor (billingSigner: Key, tge: i64, ledger: Ledger)
      ensures this.ledger == ledger && View() == Config(billingSigner, tge, 0, 0, [])
    {
      this.billingSigner, this.tge, this.ledger := billingSigner, tge, ledger;
      this.epochCounter, this.mintedTotal, this.claims := 0, 0, [];
    }

    method ClaimEpoch(signer: Key, now: i64, epochId: u64, start: i64, end: i64, reward: u64)
      returns (r: Result<(), Error>)
      modifies this, ledger
      ensures match Claim(old(View()), old(ledger.View()), signer, now, epochId, start, end, reward)
              case Ok(next) => r == Ok(()) && View() == next.0 && ledger.View() == next.1
              case Err(e) => r == Err(e) && View() == old(View()) && ledger.View() == old(ledger.View())
    {
      if signer != billingSigner { return Err(Unauthorized); }
      if end > now { return Err(EpochInFuture); }
      if end <= start { return Err(InvalidEpochRange); }
      if epochCounter + 1 > U64_MAX { return Err(Overflow); }
      if epochId != epochCounter + 1 { return Err(EpochOutOfOrder); }
      var budget := BudgetForWindow(start, end, tge);
      if budget.None? { return Err(Overflow); }
      if reward > budget.value { return Err(BudgetExceeded); }
      var before := ledger.View();
      var ok := ledger.MintTo(EmissionAuthority, EmissionVault, reward);
      if !ok { return Err(TokenError); }
      if mintedTotal + reward > U64_MAX {
        ledger.Revert(before);
        return Err(Overflow);
      }
      claims := claims + [EpochClaim(start, end, reward, 0, false)];
      epochCounter, mintedTotal := epochId, mintedTotal + reward;
      r := Ok(());
    }

    method DistributeTo(signer: Key, epochId: u64, to: Account, amount: u64) returns (r: Result<(), Error>)
      modifies this, ledger
      ensures match Distribute(old(View()), old(ledger.View()), signer, epochId, to, amount)
              case Ok(next) => r == Ok(()) && View() == next.0 && ledger.View() == next.1
              case Err(e) => r == Err(e) && View() == old(View()) && ledger.View() == old(ledger.View())
    {
      if signer != billingSigner { return Err(Unauthorized); }
      if !(1 <= epochId <= |claims|) { return Err(AccountMissing); }
      var claim := claims[epochId - 1];
      if claim.finalized { return Err(EpochFinalized); }
      var newDist := claim.distributed + amount;
      if newDist > U64_MAX { return Err(Overflow); }
      if newDist > claim.totalReward { return Err(OverDistribution); }
      var ok := ledger.Transfer(EmissionAuthority, EmissionVault, to, amount);
      if !ok { return Err(TokenError); }
      claims := claims[epochId - 1 := claim.(distributed := newDist)];
      r := Ok(());
    }

    method FinalizeEpoch(signer: Key, epochId: u64) returns (r: Result<(), Error>)
      modifies this
      ensures match Finalize(old(View()), signer, epochId)
              case Ok(next) => r == Ok(()) && View() == next
              case Err(e) => r == Err(e) && View() == old(View())
    {
      if signer != billingSigner { return Err(Unauthorized); }
      if !(1 <= epochId <= |claims|) { return Err(AccountMissing); }
      var claim := claims[epochId - 1];
      if claim.finalized { return Err(EpochFinalized); }
      if claim.totalReward < claim.distributed { return Err(Overflow); }
      claims := claims[epochId - 1 := claim.(finalized := true)];
      r := Ok(());
    }
  }
}
