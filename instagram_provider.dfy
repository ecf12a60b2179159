/**
 * The Instagram OAuth adapter: its scopes, the signature of signed API
 * requests, the signed profile query, and the mapping of the profile.
 */
module InstagramProvider {
  import opened Wrappers
  import opened Strings
  import opened Socialite

  const ScopeSeparator: string := " "
  const Scopes: seq<string> := ["basic"]

  /** One request parameter, `key => value`. */
  type Param = (string, string)

  /** The keys of a PHP array are distinct. */
  ghost predicate DistinctKeys(ps: seq<Param>) {
    forall i, j :: 0 <= i < j < |ps| ==> ps[i].0 != ps[j].0
  }

  ghost predicate SortedByKey(ps: seq<Param>) {
    forall i, j :: 0 <= i < j < |ps| ==> Less(ps[i].0, ps[j].0)
  }

  /** Insert `p` at its place in a key-sorted sequence. */
  function InsertByKey(p: Param, s: seq<Param>): seq<Param> {
    if |s| == 0 then [p]
    else if Less(p.0, s[0].0) then [p] + s
    else [s[0]] + InsertByKey(p, s[1..])
  }

  /** A parameter below every key of a sorted sequence can go in front of it. */
  lemma PrependSorted(x: Param, t: seq<Param>)
    requires SortedByKey(t)
    requires forall i :: 0 <= i < |t| ==> Less(x.0, t[i].0)
    ensures SortedByKey([x] + t)
  {
    var r := [x] + t;
    forall i, j | 0 <= i < j < |r| ensures Less(r[i].0, r[j].0) {
      assert r[j] == t[j - 1];
      if i > 0 {
        assert r[i] == t[i - 1];
      }
    }
  }

  /** Every element of a sequence whose elements are those of `s[1..]` plus `p` lies above `s[0]`. */
  lemma AboveHead(p: Param, s: seq<Param>, t: seq<Param>)
    requires SortedByKey(s) && |s| > 0 && Less(s[0].0, p.0)
    requires multiset(t) == multiset(s[1..]) + multiset{p}
    ensures forall i :: 0 <= i < |t| ==> Less(s[0].0, t[i].0)
  {
    forall i | 0 <= i < |t| ensures Less(s[0].0, t[i].0) {
      var x := t[i];
      assert x in multiset(t);
      if x != p {
        assert x in multiset(s[1..]);
        var k :| 0 <= k < |s[1..]| && s[1..][k] == x;
        assert s[k + 1] == x;
      }
    }
  }

  /** Inserting a key that is not yet present keeps the sequence sorted and adds exactly `p`. */
  lemma {:induction false} InsertByKeySorted(p: Param, s: seq<Param>)
    requires SortedByKey(s)
    requires forall i :: 0 <= i < |s| ==> s[i].0 != p.0
    ensures SortedByKey(InsertByKey(p, s))
    ensures multiset(InsertByKey(p, s)) == multiset(s) + multiset{p}
  {
    if |s| == 0 {
    } else if Less(p.0, s[0].0) {
      forall j | 0 <= j < |s| ensures Less(p.0, s[j].0) {
        if j > 0 {
          LessTransitive(p.0, s[0].0, s[j].0);
        }
      }
      PrependSorted(p, s);
    } else {
      LessTotal(p.0, s[0].0);
      SortedTail(s);
      InsertByKeySorted(p, s[1..]);
      var tail := InsertByKey(p, s[1..]);
      assert s == [s[0]] + s[1..];
      AboveHead(p, s, tail);
      PrependSorted(s[0], tail);
    }
  }

  /** `ksort($params)`: the parameters in ascending key order. */
  function KSort(ps: seq<Param>): (r: seq<Param>)
    requires DistinctKeys(ps)
    ensures SortedByKey(r)
    ensures multiset(r) == multiset(ps)
  {
    if |ps| == 0 then []
    else
      var rest := KSort(ps[1..]);
      assert ps == [ps[0]] + ps[1..];
      assert forall i :: 0 <= i < |rest| ==> rest[i].0 != ps[0].0 by {
        forall i | 0 <= i < |rest| ensures rest[i].0 != ps[0].0 {
          assert rest[i] in multiset(ps[1..]);
          var k :| 0 <= k < |ps[1..]| && ps[1..][k] == rest[i];
          assert ps[k + 1] == rest[i];
        }
      }
      InsertByKeySorted(ps[0], rest);
      InsertByKey(ps[0], rest)
  }

  lemma SortedTail(a: seq<Param>)
    requires SortedByKey(a) && |a| > 0
    ensures SortedByKey(a[1..])
  {
    forall i, j | 0 <= i < j < |a[1..]| ensures Less(a[1..][i].0, a[1..][j].0) {
      assert a[1..][i] == a[i + 1] && a[1..][j] == a[j + 1];
    }
  }

  /** Two non-empty key-sorted sequences with the same elements start alike. */
  lemma SameHead(a: seq<Param>, b: seq<Param>)
    requires SortedByKey(a) && SortedByKey(b) && |a| > 0
    requires multiset(a) == multiset(b)
    ensures |b| > 0 && a[0] == b[0]
  {
    assert a[0] in multiset(b);
    assert b[0] in multiset(a);
    if a[0] != b[0] {
      var i :| 0 <= i < |a| && a[i] == b[0];
      var j :| 0 <= j < |b| && b[j] == a[0];
      LessTransitive(a[0].0, b[0].0, a[0].0);
      LessIrreflexive(a[0].0);
    }
  }

  /** Two key-sorted sequences with the same elements are equal. */
  lemma {:induction false} SortedUnique(a: seq<Param>, b: seq<Param>)
    requires SortedByKey(a) && SortedByKey(b)
    requires multiset(a) == multiset(b)
    ensures a == b
  {
    if |a| == 0 {
      assert |multiset(b)| == 0;
    } else {
      SameHead(a, b);
      assert a == [a[0]] + a[1..] && b == [b[0]] + b[1..];
      assert multiset(a[1..]) == multiset(a) - multiset{a[0]};
      assert multiset(b[1..]) == multiset(b) - multiset{b[0]};
      SortedTail(a);
      SortedTail(b);
      SortedUnique(a[1..], b[1..]);
    }
  }

  /** `"|$key=$val"`. */
  function Piece(p: Param): string {
    "|" + p.0 + "=" + p.1
  }

  /** The pieces of `ps`, in order. */
  function Pieces(ps: seq<Param>): string {
    if |ps| == 0 then "" else Pieces(ps[..|ps| - 1]) + Piece(ps[|ps| - 1])
  }

  /** The string that is signed: the endpoint, then `|key=value` for each parameter by ascending key. */
  function SignatureBase(endpoint: string, params: seq<Param>): (r: string)
    requires DistinctKeys(params)
    ensures |r| >= |endpoint| && r[..|endpoint|] == endpoint
  {
    endpoint + Pieces(KSort(params))
  }

  /** The signed string does not depend on the order the parameters were given in. */
  lemma SignatureBaseOrderIndependent(endpoint: string, ps: seq<Param>, qs: seq<Param>)
    requires DistinctKeys(ps) && DistinctKeys(qs)
    requires multiset(ps) == multiset(qs)
    ensures SignatureBase(endpoint, ps) == SignatureBase(endpoint, qs)
  {
    SortedUnique(KSort(ps), KSort(qs));
  }

  /**
   * `generateSignature`: sort the parameters, append `|key=value` for each,
   * and sign the result with the client secret. `hmac(data, key)` stands for
   * `hash_hmac('sha256', data, key)`.
   */
  method GenerateSignature(endpoint: string, params: seq<Param>, clientSecret: string,
                           hmac: (string, string) -> string) returns (signature: string)
    requires DistinctKeys(params)
    ensures signature == hmac(SignatureBase(endpoint, params), clientSecret)
  {
    var sorted := KSort(params);
    var sig := endpoint;
    for i := 0 to |sorted|
      invariant sig == endpoint + Pieces(sorted[..i])
    {
      assert sorted[..i + 1][..i] == sorted[..i];
      sig := sig + "|" + sorted[i].0 + "=" + sorted[i].1;
    }
    assert sorted[..|sorted|] == sorted;
    signature := hmac(sig, clientSecret);
  }

  /** The signed string of a single parameter. */
  lemma SingleParamBase(endpoint: string, p: Param)
    ensures SignatureBase(endpoint, [p]) == endpoint + "|" + p.0 + "=" + p.1
  {
    assert [p][1..] == [];
    assert KSort([p]) == InsertByKey(p, []) == [p];
    assert [p][..0] == [];
    assert Pieces([p]) == Piece(p);
  }

  /**
   * The query of `getUserByToken`: the access token, signed over the query
   * without `sig`, and then `sig` added as the only other key.
   */
  method UserByTokenQuery(token: string, clientSecret: string, hmac: (string, string) -> string)
    returns (query: map<string, string>)
    ensures query.Keys == {"access_token", "sig"}
    ensures query["access_token"] == token
    ensures query["sig"] == hmac("/users/self" + "|" + "access_token" + "=" + token, clientSecret)
  {
    var endpoint := "/users/self";
    query := map["access_token" := token];
    var signature := GenerateSignature(endpoint, [("access_token", token)], clientSecret, hmac);
    SingleParamBase(endpoint, ("access_token", token));
    query := query["sig" := signature];
  }

  /**
   * `mapUserToObject`: id, nickname, name and avatar from `id`, `username`,
   * `full_name` and `profile_picture`; the email is always null. A missing key
   * is an undefined-index error.
   */
  function MapUserToObject(raw: map<string, string>): (r: Result<SocialUser, string>)
    ensures r.Ok? <==> "id" in raw && "username" in raw && "full_name" in raw && "profile_picture" in raw
    ensures r.Ok? ==>
      && r.value.id == Some(raw["id"]) && r.value.nickname == Some(raw["username"])
      && r.value.name == Some(raw["full_name"]) && r.value.avatar == Some(raw["profile_picture"])
      && r.value.email == None && r.value.raw == raw
  {
    if "id" in raw && "username" in raw && "full_name" in raw && "profile_picture" in raw then
      Ok(SocialUser(Some(raw["id"]), Some(raw["username"]), Some(raw["full_name"]), None,
                    Some(raw["profile_picture"]), None, None, None, None, raw))
    else
      Err("Undefined index")
  }

  /** `parseAccessToken`, `parseRefreshToken`, `parseExpiresIn`. */
  function ParseAccessToken(body: map<string, string>): Option<string> { Lookup(body, "access_token") }
  function ParseRefreshToken(body: map<string, string>): Option<string> { Lookup(body, "refresh_token") }
  function ParseExpiresIn(body: map<string, string>): Option<string> { Lookup(body, "expires_in") }

  /**
   * The three token fields are read from their own keys of the token
   * response, each absent exactly when its key is.
   */
  lemma ParseTokenResponse(body: map<string, string>)
    ensures ParseAccessToken(body).Some? <==> "access_token" in body
    ensures ParseRefreshToken(body).Some? <==> "refresh_token" in body
    ensures ParseExpiresIn(body).Some? <==> "expires_in" in body
    ensures "access_token" in body ==> ParseAccessToken(body).value == body["access_token"]
    ensures "refresh_token" in body ==> ParseRefreshToken(body).value == body["refresh_token"]
    ensures "expires_in" in body ==> ParseExpiresIn(body).value == body["expires_in"]
  {
  }

  /** The scope string sent to Instagram by default. */
  lemma DefaultScopes()
    ensures Implode(ScopeSeparator, Scopes) == "basic"
  {
  }
}
