/** The AutoRouter bearer-token cache (lib/auth.ts): a token and its expiry are
    kept between calls and refreshed with a client-credentials request once the
    expiry has passed. */
module Auth {
  import opened Wrappers
  import opened Http

  /** The token endpoint's body: `access_token` and `expires_in` (seconds); a
      missing field is `None` (a missing `expires_in` makes the expiry NaN). */
  datatype TokenBody = TokenBody(accessToken: Option<string>, expiresIn: Option<int>)

  /** One minute, subtracted from the lifetime as a safety margin. */
  const ExpiryMarginMs: int := 60000

  /** `now + expires_in * 1000 - 60000`, or NaN when `expires_in` is missing. */
  function ExpiryAt(receivedAt: int, expiresIn: Option<int>): Option<int> {
    match expiresIn
    case Some(seconds) => Some(receivedAt + seconds * 1000 - ExpiryMarginMs)
    case None => None
  }

  /** `accessToken && tokenExpiry && tokenExpiry > Date.now()`: an empty token,
      a null or NaN expiry and an expiry of 0 are all falsy. */
  predicate TokenValid(token: Option<string>, expiry: Option<int>, now: int) {
    token.Some? && token.value != "" && expiry.Some? && expiry.value != 0 && expiry.value > now
  }

  /** A token received at `receivedAt` with a lifetime of `seconds` is accepted
      exactly until one minute before it lapses; at that instant it has expired. */
  lemma FreshTokenLifetime(token: string, receivedAt: int, seconds: int, now: int)
    requires token != ""
    requires receivedAt + seconds * 1000 - ExpiryMarginMs != 0
    ensures TokenValid(Some(token), ExpiryAt(receivedAt, Some(seconds)), now)
      <==> now < receivedAt + seconds * 1000 - ExpiryMarginMs
    ensures !TokenValid(Some(token), ExpiryAt(receivedAt, Some(seconds)), receivedAt + seconds * 1000 - ExpiryMarginMs)
  {
  }

  /** A token stays valid as time goes back, and once expired stays expired. */
  lemma ValidityMonotonic(token: Option<string>, expiry: Option<int>, earlier: int, later: int)
    requires earlier <= later
    ensures TokenValid(token, expiry, later) ==> TokenValid(token, expiry, earlier)
  {
  }

  /** A lifetime of a minute or less gives a token that is never accepted
      afterwards: the next call requests a new one. */
  lemma ShortLifetimeNeverValid(token: Option<string>, receivedAt: int, seconds: int, now: int)
    requires seconds <= 60 && now >= receivedAt
    ensures !TokenValid(token, ExpiryAt(receivedAt, Some(seconds)), now)
  {
  }

  /** The module-level `accessToken` and `tokenExpiry`. */
  class TokenCache {
    var accessToken: Option<string>
    var tokenExpiry: Option<int>

    /** Both start out null. */
    constructor()
      ensures accessToken == None && tokenExpiry == None
    {
      accessToken := None;
      tokenExpiry := None;
    }

    predicate HasValidToken(now: int)
      reads this
    {
      TokenValid(accessToken, tokenExpiry, now)
    }

    /** `getAccessToken()`. `now` is the clock at the check, `response` what the
        token request resolves to (when one is made) and `receivedAt` the clock
        after it. `requested` says whether the request was made. */
    method GetAccessToken(now: int, response: Result<Upstream<TokenBody>>, receivedAt: int)
      returns (r: Result<Option<string>>, requested: bool)
      modifies this
      ensures requested <==> !old(HasValidToken(now))
      ensures !requested ==> r == Ok(old(accessToken)) && unchanged(this)
      ensures requested && (response.Err? || !response.value.Ok() || response.value.body.Err?) ==>
        r.Err? && unchanged(this)
      ensures requested && response.Ok? && response.value.Ok() && response.value.body.Ok? ==>
        var body := response.value.body.value;
        && accessToken == body.accessToken
        && tokenExpiry == ExpiryAt(receivedAt, body.expiresIn)
        && r == Ok(body.accessToken)
      ensures requested && !response.Err? && !response.value.Ok() ==>
        r == Err(Throw("Failed to authenticate with AutoRouter API"))
    {
      if HasValidToken(now) {
        return Ok(accessToken), false;
      }
      requested := true;
      if response.Err? {
        return Err(response.error), requested;
      }
      if !response.value.Ok() {
        return Err(Throw("Failed to authenticate with AutoRouter API")), requested;
      }
      if response.value.body.Err? {
        return Err(response.value.body.error), requested;
      }
      var data := response.value.body.value;
      accessToken := data.accessToken;
      tokenExpiry := ExpiryAt(receivedAt, data.expiresIn);
      r := Ok(accessToken);
    }
  }
}
