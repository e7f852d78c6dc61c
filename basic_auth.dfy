/**
 * Auth/BasicAuthHandler.cs: HTTP Basic authentication against the API_USER and API_PASS
 * settings. The Authorization header is taken already parsed into scheme and parameter, and
 * `decode` stands for Convert.FromBase64String followed by UTF-8 decoding.
 */
module BasicAuth {
  import opened Wrappers
  import opened Extensions
  import Text

  /** AuthenticationHeaderValue: the scheme and the optional parameter after it. */
  datatype AuthHeader = AuthHeader(scheme: string, parameter: Option<string>)

  datatype Claim = Claim(claimType: string, value: string)

  /** The ticket's principal: its claims and the scheme that authenticated it. */
  datatype Ticket = Ticket(claims: seq<Claim>, scheme: string)

  datatype AuthenticateResult = NoResult | Fail(message: string) | Success(ticket: Ticket)

  /** ClaimTypes.Name. */
  const NameClaimType: string := "http://schemas.xmlsoap.org/ws/2005/05/identity/claims/name"

  /** String.Split(':', 2): the text before the first colon and everything after it, or the whole text. */
  function SplitCredentials(s: string): (r: seq<string>)
    ensures |r| == 1 || |r| == 2
    ensures |r| == 2 <==> ':' in s
    ensures |r| == 1 ==> r[0] == s
    ensures |r| == 2 ==> ':' !in r[0] && r[0] + ":" + r[1] == s
  {
    if ':' in s then
      var i := Text.IndexOf(s, ':');
      assert s == s[..i] + ":" + s[i + 1..];
      [s[..i], s[i + 1..]]
    else [s]
  }

  /** A user name free of colons and any password, joined by a colon, split back apart. */
  lemma SplitJoined(user: string, password: string)
    requires ':' !in user
    ensures SplitCredentials(user + ":" + password) == [user, password]
  {
    var s := user + ":" + password;
    Text.IndexAfter(user, ':', password);
    assert s[..|user|] == user;
    assert s[|user| + 1..] == password;
  }

  /**
   * HandleAuthenticateAsync: no header or another scheme gives no result; credentials without
   * a colon or not matching the settings fail; a match succeeds with the user name as the
   * Name claim. The user name is compared before the password setting is read.
   */
  function Authenticate(header: Option<AuthHeader>, decode: string -> Result<string>,
    config: map<string, string>, schemeName: string): (r: Result<AuthenticateResult>)
    ensures r == Ok(NoResult) <==> header.None? || header.value.scheme != "Basic"
    ensures header.Some? && header.value.scheme == "Basic" && header.value.parameter.Some?
      && decode(header.value.parameter.value).Ok? && ':' !in decode(header.value.parameter.value).value
      ==> r == Ok(Fail("Invalid credentials"))
    ensures r.Ok? && r.value.Fail? ==> r.value.message == "Invalid credentials"
    ensures r.Err? ==> r.error == Argument || (header.value.parameter.Some? && decode(header.value.parameter.value) == Err(r.error))
  {
    if header.None? || header.value.scheme != "Basic" then Ok(NoResult)
    else if header.value.parameter.None? then Err(Argument)
    else match decode(header.value.parameter.value)
      case Err(e) => Err(e)
      case Ok(text) =>
        var credentials := SplitCredentials(text);
        if |credentials| != 2 then Ok(Fail("Invalid credentials"))
        else
          var (username, password) := (credentials[0], credentials[1]);
          match GetString(config, "API_USER", None)
          case Err(e) => Err(e)
          case Ok(user) =>
            if username != user then Ok(Fail("Invalid credentials"))
            else match GetString(config, "API_PASS", None)
              case Err(e) => Err(e)
              case Ok(pass) =>
                if password != pass then Ok(Fail("Invalid credentials"))
                else Ok(Success(Ticket([Claim(NameClaimType, username)], schemeName)))
  }

  /**
   * Authentication succeeds exactly when a Basic header decodes to the configured user, a
   * colon and the configured password, and the ticket names that user; it never succeeds
   * for a configured user name holding a colon.
   */
  lemma SuccessSpec(header: Option<AuthHeader>, decode: string -> Result<string>,
    config: map<string, string>, schemeName: string)
    ensures Authenticate(header, decode, config, schemeName).Ok? && Authenticate(header, decode, config, schemeName).value.Success? <==>
      && header.Some? && header.value.scheme == "Basic" && header.value.parameter.Some?
      && decode(header.value.parameter.value).Ok?
      && GetString(config, "API_USER", None).Ok? && GetString(config, "API_PASS", None).Ok?
      && ':' !in GetString(config, "API_USER", None).value
      && decode(header.value.parameter.value).value
           == GetString(config, "API_USER", None).value + ":" + GetString(config, "API_PASS", None).value
    ensures Authenticate(header, decode, config, schemeName).Ok? && Authenticate(header, decode, config, schemeName).value.Success? ==>
      Authenticate(header, decode, config, schemeName).value.ticket
        == Ticket([Claim(NameClaimType, GetString(config, "API_USER", None).value)], schemeName)
  {
    if header.Some? && header.value.scheme == "Basic" && header.value.parameter.Some? && decode(header.value.parameter.value).Ok? {
      var text := decode(header.value.parameter.value).value;
      var user := GetString(config, "API_USER", None);
      var pass := GetString(config, "API_PASS", None);
      if user.Ok? && pass.Ok? && ':' !in user.value && text == user.value + ":" + pass.value {
        SplitJoined(user.value, pass.value);
      }
    }
  }

  /** A wrong user name fails whether or not the password setting could be read. */
  lemma WrongUserFails(header: AuthHeader, decode: string -> Result<string>, config: map<string, string>, schemeName: string,
    username: string, password: string)
    requires header.scheme == "Basic" && header.parameter.Some? && ':' !in username
    requires decode(header.parameter.value) == Ok(username + ":" + password)
    requires GetString(config, "API_USER", None).Ok? && GetString(config, "API_USER", None).value != username
    ensures Authenticate(Some(header), decode, config, schemeName) == Ok(Fail("Invalid credentials"))
  {
    SplitJoined(username, password);
  }
}
