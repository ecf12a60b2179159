/**
 * The LINE OAuth adapter: its scopes, the token-response lookups, the profile
 * taken from the id_token or from the profile endpoint, and its field mapping.
 */
module LineProvider {
  import opened Wrappers
  import opened Strings
  import opened Socialite

  const ScopeSeparator: string := " "
  const Scopes: seq<string> := ["openid", "profile", "email"]

  /** The scope string sent to LINE by default. */
  lemma DefaultScopes()
    ensures Implode(ScopeSeparator, Scopes) == "openid profile email"
  {
    assert Scopes[1..] == ["profile", "email"];
    assert Scopes[1..][1..] == ["email"];
  }

  /** The errors `user()` can raise. */
  datatype LineError =
    | InvalidState          // the OAuth state did not match
    | MalformedIdToken      // fewer than three dot-separated segments
    | UndecodableProfile    // the body segment did not decode to an array

  /**
   * `mapUserToObject`: id from `userId`, else `sub`; name from `displayName`,
   * else `name`; avatar from `pictureUrl`, else `picture`; email from `email`;
   * the nickname is always null.
   */
  function MapUserToObject(raw: map<string, string>): (u: SocialUser)
    ensures u.nickname == None && u.raw == raw
    ensures "userId" in raw ==> u.id == Some(raw["userId"])
    ensures "userId" !in raw ==> u.id == Lookup(raw, "sub")
    ensures "displayName" in raw ==> u.name == Some(raw["displayName"])
    ensures "displayName" !in raw ==> u.name == Lookup(raw, "name")
    ensures "pictureUrl" in raw ==> u.avatar == Some(raw["pictureUrl"])
    ensures "pictureUrl" !in raw ==> u.avatar == Lookup(raw, "picture")
    ensures u.email == Lookup(raw, "email")
    ensures u.token == None && u.refreshToken == None && u.tokenSecret == None && u.expiresIn == None
  {
    SocialUser(
      Coalesce(Lookup(raw, "userId"), Lookup(raw, "sub")),
      None,
      Coalesce(Lookup(raw, "displayName"), Lookup(raw, "name")),
      Lookup(raw, "email"),
      Coalesce(Lookup(raw, "pictureUrl"), Lookup(raw, "picture")),
      None, None, None, None, raw)
  }

  /** `parseAccessToken`, `parseRefreshToken`, `parseExpiresIn`: `Arr::get` on the token response. */
  function ParseAccessToken(body: map<string, string>): Option<string> { Lookup(body, "access_token") }
  function ParseRefreshToken(body: map<string, string>): Option<string> { Lookup(body, "refresh_token") }
  function ParseExpiresIn(body: map<string, string>): Option<string> { Lookup(body, "expires_in") }

  /** PHP truthiness of a string: only "" and "0" are false. */
  predicate Truthy(s: string) {
    s != "" && s != "0"
  }

  function TranslateChar(c: char): char {
    if c == '-' then '+' else if c == '_' then '/' else c
  }

  /** `strtr(s, '-_', '+/')`: base64url to base64, character by character. */
  function Translate(s: string): (r: string)
    ensures |r| == |s|
    ensures forall i :: 0 <= i < |s| ==> r[i] == TranslateChar(s[i])
  {
    seq(|s|, i requires 0 <= i < |s| => TranslateChar(s[i]))
  }

  /** The translation leaves no base64url-only character behind and changes no other character. */
  lemma TranslateIsBase64(s: string)
    ensures '-' !in Translate(s) && '_' !in Translate(s)
    ensures forall i :: 0 <= i < |s| && s[i] != '-' && s[i] != '_' ==> Translate(s)[i] == s[i]
  {
  }

  function UntranslateChar(c: char): char {
    if c == '+' then '-' else if c == '/' then '_' else c
  }

  /** Base64 back to base64url. */
  function Untranslate(s: string): (r: string)
    ensures |r| == |s|
    ensures forall i :: 0 <= i < |s| ==> r[i] == UntranslateChar(s[i])
  {
    seq(|s|, i requires 0 <= i < |s| => UntranslateChar(s[i]))
  }

  /** On a base64url string (no `+` or `/`), translating and translating back is the identity. */
  lemma TranslateRoundTrip(s: string)
    requires '+' !in s && '/' !in s
    ensures Untranslate(Translate(s)) == s
  {
    assert forall i :: 0 <= i < |s| ==> s[i] != '+' && s[i] != '/';
  }

  /**
   * `user()`. `decode` stands for `json_decode(base64_decode(...), true)` and
   * gives None when the result is not an array; `profile` stands for the
   * profile endpoint `getUserByToken`; `seconds` for PHP's conversion of the
   * `expires_in` value to a number of seconds.
   */
  function User(invalidState: bool, response: map<string, string>,
                decode: string -> Option<map<string, string>>,
                profile: Option<string> -> map<string, string>,
                seconds: string -> int): (r: Result<SocialUser, LineError>)
    ensures r == Err(InvalidState) <==> invalidState
    ensures r.Err? && !invalidState ==> "id_token" in response && Truthy(response["id_token"])
  {
    if invalidState then Err(InvalidState)
    else
      var jwt := Lookup(response, "id_token");
      var mapped :=
        if jwt.Some? && Truthy(jwt.value) then
          var segments := Explode('.', jwt.value);
          if |segments| < 3 then Err(MalformedIdToken)
          else
            match decode(Translate(segments[1]))
            case None => Err(UndecodableProfile)
            case Some(body) => Ok(MapUserToObject(body))
        else
          Ok(MapUserToObject(profile(ParseAccessToken(response))));
      match mapped
      case Err(e) => Err(e)
      case Ok(u) =>
        var expires := ParseExpiresIn(response);
        Ok(u.(token := ParseAccessToken(response),
              refreshToken := ParseRefreshToken(response),
              expiresIn := if expires.Some? then Some(seconds(expires.value)) else None))
  }

  /**
   * With an id_token `header.body.signature`, the profile is the decoded body
   * segment after base64url translation, and the tokens and expiry come from
   * the `access_token`, `refresh_token` and `expires_in` keys.
   */
  lemma UserFromIdToken(response: map<string, string>, header: string, body: string, signature: string,
                        decode: string -> Option<map<string, string>>,
                        profile: Option<string> -> map<string, string>, seconds: string -> int)
    requires '.' !in header && '.' !in body
    requires "id_token" in response && response["id_token"] == header + "." + body + "." + signature
    requires decode(Translate(body)).Some?
    ensures var u := MapUserToObject(decode(Translate(body)).value);
      User(false, response, decode, profile, seconds)
        == Ok(u.(token := Lookup(response, "access_token"),
                 refreshToken := Lookup(response, "refresh_token"),
                 expiresIn := if "expires_in" in response then Some(seconds(response["expires_in"])) else None))
  {
    var jwt := response["id_token"];
    assert jwt == header + ['.'] + (body + ['.'] + signature);
    ExplodeFirstPiece('.', header, body + ['.'] + signature);
    ExplodeFirstPiece('.', body, signature);
    assert Explode('.', jwt)[1] == body;
    assert |jwt| > |header| + |body| + 1;
    assert jwt[|header|] == '.';
    assert Truthy(jwt);
  }

  /** Without a truthy id_token, the profile comes from the profile endpoint called with the access token. */
  lemma UserFromProfileEndpoint(response: map<string, string>,
                                decode: string -> Option<map<string, string>>,
                                profile: Option<string> -> map<string, string>, seconds: string -> int)
    requires "id_token" !in response || !Truthy(response["id_token"])
    ensures User(false, response, decode, profile, seconds).Ok?
    ensures User(false, response, decode, profile, seconds).value.(token := None, refreshToken := None, expiresIn := None)
            == MapUserToObject(profile(Lookup(response, "access_token")))
  {
  }

  /**
   * Whatever path produced the profile, a successful `user()` carries the
   * tokens and expiry of the token response; a mismatched state always fails.
   */
  lemma UserTokensFromResponse(invalidState: bool, response: map<string, string>,
                               decode: string -> Option<map<string, string>>,
                               profile: Option<string> -> map<string, string>, seconds: string -> int)
    ensures invalidState ==> User(invalidState, response, decode, profile, seconds) == Err(InvalidState)
    ensures var r := User(invalidState, response, decode, profile, seconds);
      r.Ok? ==>
        (&& r.value.token == Lookup(response, "access_token")
         && r.value.refreshToken == Lookup(response, "refresh_token")
         && (r.value.expiresIn.Some? <==> "expires_in" in response)
         && ("expires_in" in response ==> r.value.expiresIn == Some(seconds(response["expires_in"]))))
  {
  }

  /** An id_token with fewer than three segments is an error. */
  lemma ShortIdTokenFails(response: map<string, string>, header: string, body: string,
                          decode: string -> Option<map<string, string>>,
                          profile: Option<string> -> map<string, string>, seconds: string -> int)
    requires '.' !in header && '.' !in body
    requires "id_token" in response && response["id_token"] == header + "." + body
    ensures User(false, response, decode, profile, seconds) == Err(MalformedIdToken)
  {
    var jwt := response["id_token"];
    assert jwt == header + ['.'] + body;
    ExplodeFirstPiece('.', header, body);
    ExplodeNoDelimiter('.', body);
    assert Truthy(jwt) by {
      assert jwt[|header|] == '.';
    }
  }
}
