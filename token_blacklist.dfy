/** service/TokenBlackListService.java: tokens revoked at logout, each kept
    with its own expiry until an hourly sweep drops the expired ones. */
module TokenBlacklist {
  import opened Ids

  /** token -> the expiry JWTUtil reads from it. */
  type Blacklist = map<string, Instant>

  /** blacklistToken's change: a token already listed keeps its entry. */
  function Listed(m: Blacklist, token: string, expiration: Instant): (r: Blacklist)
    ensures token in r
    ensures token in m ==> r == m
    ensures token !in m ==> r[token] == expiration
    ensures forall t :: t != token ==> (t in r <==> t in m) && (t in m ==> r[t] == m[t])
  {
    if token in m then m else m[token := expiration]
  }

  /** cleanupExpiredTokens' change: an entry goes exactly when its expiry is
      strictly before `now`. */
  function Unexpired(m: Blacklist, now: Instant): (r: Blacklist)
    ensures forall t :: t in r <==> t in m && !(m[t] < now)
    ensures forall t :: t in r ==> r[t] == m[t]
  {
    map t | t in m && !(m[t] < now) :: m[t]
  }

  /** A token stays listed through every sweep until the sweep's clock
      passes its expiry; a second sweep at the same instant changes nothing,
      and listing a token twice is listing it once. */
  lemma ListedUntilExpired(m: Blacklist, token: string, expiration: Instant, now: Instant, exp2: Instant)
    ensures var after := Listed(m, token, expiration);
      token in Unexpired(after, now) <==> !(after[token] < now)
    ensures Unexpired(Unexpired(m, now), now) == Unexpired(m, now)
    ensures Listed(Listed(m, token, expiration), token, exp2) == Listed(m, token, expiration)
  {
  }

  /** Sweeps are monotone in the clock: a later sweep keeps no more. */
  lemma LaterSweepKeepsLess(m: Blacklist, earlier: Instant, later: Instant)
    requires earlier <= later
    ensures Unexpired(m, later).Keys <= Unexpired(m, earlier).Keys
    ensures Unexpired(Unexpired(m, earlier), later) == Unexpired(m, later)
  {
  }

  class TokenBlackListService {
    var blacklistedTokens: Blacklist

    constructor ()
      ensures blacklistedTokens == map[]
    {
      blacklistedTokens := map[];
    }

    /** blacklistToken; `expiration` is what JWTUtil.extractExpiration
        returns for the token. */
    method BlacklistToken(token: string, expiration: Instant)
      modifies this
      ensures blacklistedTokens == Listed(old(blacklistedTokens), token, expiration)
    {
      if token !in blacklistedTokens {
        blacklistedTokens := blacklistedTokens[token := expiration];
      }
    }

    /** isBlacklisted. */
    predicate IsBlacklisted(token: string)
      reads this
    {
      token in blacklistedTokens
    }

    /** cleanupExpiredTokens at clock reading `now`. */
    method CleanupExpiredTokens(now: Instant)
      modifies this
      ensures blacklistedTokens == Unexpired(old(blacklistedTokens), now)
    {
      blacklistedTokens := map t | t in blacklistedTokens && !(blacklistedTokens[t] < now) :: blacklistedTokens[t];
    }
  }
}
