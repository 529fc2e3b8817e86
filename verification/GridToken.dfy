/** contracts/programs/grid-token/src/lib.rs: the capped admin mint and the hand-over of the mint
    authority. */
module GridToken {
  import opened Integers
  import opened TokenLedger

  const GRID_HARD_CAP := 1_000_000_000_000_000_000 // 1B $GRID at 9 decimals

  datatype Error = Unauthorized | AuthorityLocked | Overflow | HardCapExceeded | TokenError

  datatype Config = Config(admin: Key, mintedSoFar: int, authorityLocked: bool)

  function MintToRecipient(c: Config, t: Tokens, signer: Key, to: Account, amount: u64)
    : Result<(Config, Tokens), Error>
  {
    if signer != c.admin then Err(Unauthorized)
    else if c.authorityLocked then Err(AuthorityLocked)
    else if c.mintedSoFar + amount > U64_MAX then Err(Overflow)
    else if c.mintedSoFar + amount > GRID_HARD_CAP then Err(HardCapExceeded)
    else match t.MintTo(c.admin, to, amount)
         case None => Err(TokenError)
         case Some(t') => Ok((c.(mintedSoFar := c.mintedSoFar + amount), t'))
  }

  function TransferMintAuthority(c: Config, t: Tokens, signer: Key, newAuthority: Key): Result<Tokens, Error> {
    if signer != c.admin then Err(Unauthorized)
    else if c.authorityLocked then Err(AuthorityLocked)
    else match t.SetAuthority(c.admin, newAuthority)
         case None => Err(TokenError)
         case Some(t') => Ok(t')
  }

  function LockAuthorities(c: Config, signer: Key): Result<Config, Error> {
    if signer != c.admin then Err(Unauthorized)
    else if c.authorityLocked then Err(AuthorityLocked)
    else Ok(c.(authorityLocked := true))
  }

  /** The `GridConfig` account, next to the ledger it mints on. */
  class GridConfig {
    const ledger: Ledger
    const admin: Key
    var mintedSoFar: int
    var authorityLocked: bool

    function View(): Config
      reads this
    {
      Config(admin, mintedSoFar, authorityLocked)
    }

    constructor (admin: Key, ledger: Ledger)
      ensures this.ledger == ledger && View() == Config(admin, 0, false)
    {
      this.admin, this.ledger, this.mintedSoFar, this.authorityLocked := admin, ledger, 0, false;
    }

    method MintToRecipientAccount(signer: Key, to: Account, amount: u64) returns (r: Result<(), Error>)
      modifies this, ledger
      ensures match MintToRecipient(old(View()), old(ledger.View()), signer, to, amount)
              case Ok(next) => r == Ok(()) && View() == next.0 && ledger.View() == next.1
              case Err(e) => r == Err(e) && View() == old(View()) && ledger.View() == old(ledger.View())
    {
      if signer != admin { return Err(Unauthorized); }
      if authorityLocked { return Err(AuthorityLocked); }
      var newTotal := mintedSoFar + amount;
      if newTotal > U64_MAX { return Err(Overflow); }
      if newTotal > GRID_HARD_CAP { return Err(HardCapExceeded); }
      var ok := ledger.MintTo(admin, to, amount);
      if !ok { return Err(TokenError); }
      mintedSoFar := newTotal;
      r := Ok(());
    }

    method HandOver(signer: Key, newAuthority: Key) returns (r: Result<(), Error>)
      modifies ledger
      ensures match TransferMintAuthority(View(), old(ledger.View()), signer, newAuthority)
              case Ok(next) => r == Ok(()) && ledger.View() == next
              case Err(e) => r == Err(e) && ledger.View() == old(ledger.View())
    {
      if signer != admin { return Err(Unauthorized); }
      if authorityLocked { return Err(AuthorityLocked); }
      var ok := ledger.SetAuthority(admin, newAuthority);
      r := if ok then Ok(()) else Err(TokenError);
    }

    method Lock(signer: Key) returns (r: Result<(), Error>)
      modifies this
      ensures match LockAuthorities(old(View()), signer)
              case Ok(next) => r == Ok(()) && View() == next
              case Err(e) => r == Err(e) && View() == old(View())
    {
      if signer != admin { return Err(Unauthorized); }
      if authorityLocked { return Err(AuthorityLocked); }
      authorityLocked := true;
      r := Ok(());
    }
  }
}
