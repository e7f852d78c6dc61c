/** The bearer-token record of GroheApiClasses/AuthTokens.cs. */
module Tokens {

  /**
   * The token grant as the token endpoint returns it (the OAuth 2.0 refresh-token grant of
   * section 6 of RFC 6749), stamped with the local clock when it was deserialized. Every field
   * is init-only in the source, so a value type captures it: a token is replaced, never edited.
   */
  datatype AuthTokens = AuthTokens(
    accessToken: string,
    expiresIn: int,         // seconds
    refreshToken: string,
    refreshExpiresIn: int,  // seconds
    createdAt: int)         // clock reading (seconds) at deserialization

  /** The JSON body of a token response. */
  datatype TokenResponse = TokenResponse(accessToken: string, expiresIn: int, refreshToken: string, refreshExpiresIn: int)

  /** Deserializing a token response at clock reading `now`. */
  function Received(body: TokenResponse, now: int): AuthTokens {
    AuthTokens(body.accessToken, body.expiresIn, body.refreshToken, body.refreshExpiresIn, now)
  }

  /** C# `long / 2`: division truncated toward zero (not Dafny's Euclidean division). */
  function HalfTowardZero(x: int): (h: int)
    ensures x >= 0 ==> 0 <= h && 2 * h <= x <= 2 * h + 1
    ensures x < 0 ==> h <= 0 && 2 * h - 1 <= x <= 2 * h
  {
    if x >= 0 then x / 2 else -((-x) / 2)
  }

  /** RefreshAt: half of the token lifetime after it was received. */
  function RefreshAt(t: AuthTokens): (r: int)
    ensures t.expiresIn >= 0 ==> t.createdAt <= r <= t.createdAt + t.expiresIn
    ensures t.expiresIn >= 0 ==> 2 * (r - t.createdAt) <= t.expiresIn <= 2 * (r - t.createdAt) + 1
  {
    t.createdAt + HalfTowardZero(t.expiresIn)
  }

  /** RefreshTokenIfNecessary returns early exactly when RefreshAt lies in the future. */
  predicate RefreshDue(t: AuthTokens, now: int) {
    !(RefreshAt(t) > now)
  }

  /**
   * A token with a non-negative lifetime falls due once twice its age, plus one, reaches the
   * lifetime: an hour-long token after half an hour, and an odd lifetime rounds down.
   */
  lemma RefreshDueWhen(t: AuthTokens, now: int)
    requires t.expiresIn >= 0
    ensures RefreshDue(t, now) <==> 2 * (now - t.createdAt) + 1 >= t.expiresIn
  {
  }

  /** A freshly received token with a positive lifetime is not due at once. */
  lemma FreshTokenNotDue(body: TokenResponse, now: int)
    requires body.expiresIn >= 2
    ensures !RefreshDue(Received(body, now), now)
  {
  }
}
