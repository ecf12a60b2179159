/**
 * The login callback of the HandleSocialAuthenticate controller mixin: allow-list,
 * lookup of the owner by (provider_name, provider_id), refresh-and-login,
 * duplicate-email rejection, and registration of a new account.
 */
module HandleSocialAuthenticate {
  import opened Wrappers
  import opened SocialCredential
  import opened CredentialStore
  import opened HasSocialCredentials
  import opened Socialite
  import opened Flow

  /** A provider is allowed iff the configuration has the key `services.{provider}`. */
  function IsAllowedProvider(config: set<string>, provider: string): bool {
    "services." + provider in config
  }

  /** The link branch applies when the link mixin is present and the request is authenticated. */
  predicate IsLinkCallbackRequest(hasLinkCallback: bool, user: Option<Owner>) {
    hasLinkCallback && user.Some?
  }

  /** The owner of the first credential matching both provider_name and provider_id, else None. */
  function FindUserBySocialiteUser(s: Store, provider: string, su: SocialUser): (r: Option<Owner>)
    ensures r.Some? <==> exists i :: 0 <= i < |s| && Satisfies(s[i], ByKey(Some(provider), su.id))
    ensures r.Some? ==> exists i :: 0 <= i < |s| && Satisfies(s[i], ByKey(Some(provider), su.id)) && s[i].owner == r.value
    ensures UniqueKeys(s) ==> forall i :: 0 <= i < |s| && Satisfies(s[i], ByKey(Some(provider), su.id)) ==> r == Some(s[i].owner)
  {
    var q := ByKey(Some(provider), su.id);
    var i := FirstIndex(s, q);
    assert UniqueKeys(s) ==> forall j :: 0 <= j < |s| && Satisfies(s[j], q) ==> i == Some(j) by {
      forall j | UniqueKeys(s) && 0 <= j < |s| && Satisfies(s[j], q) {
        UniqueKeyMatch(s, q, j);
      }
    }
    if i.Some? then Some(s[i.value].owner) else None
  }

  /** The profile and token columns written from the social user on every callback. */
  function UpdateSocialCredential(c: Credential, su: SocialUser, now: int): Credential {
    c.(name := su.name,
       nickname := su.nickname,
       email := su.email,
       avatar := su.avatar,
       accessToken := su.token,
       expiresAt := if su.expiresIn.Some? then Some(now + su.expiresIn.value) else None,
       refreshToken := Coalesce(su.refreshToken, su.tokenSecret),
       raw := su.raw)
  }

  /** The same update as the source writes it: the avatar column receives the name. */
  function UpdateSocialCredentialAsWritten(c: Credential, su: SocialUser, now: int): Credential {
    UpdateSocialCredential(c, su, now).(avatar := su.name)
  }

  /** The columns written by `updateSocialCredential`, with the identity of the row untouched. */
  lemma UpdateSocialCredentialFields(c: Credential, su: SocialUser, now: int)
    ensures var r := UpdateSocialCredential(c, su, now);
      && r.id == c.id && r.owner == c.owner
      && r.providerName == c.providerName && r.providerId == c.providerId
      && r.accessToken == su.token && r.raw == su.raw && r.avatar == su.avatar
      && r.name == su.name && r.nickname == su.nickname && r.email == su.email
      && (su.expiresIn.Some? ==> r.expiresAt == Some(now + su.expiresIn.value))
      && (su.expiresIn.None? ==> r.expiresAt == None)
      && (su.refreshToken.Some? ==> r.refreshToken == su.refreshToken)
      && (su.refreshToken.None? ==> r.refreshToken == su.tokenSecret)
  {
  }

  /** Applying the same social user twice gives the same row as once, up to the expiry, whichever row it started from. */
  lemma UpdateSocialCredentialIdempotent(c: Credential, su: SocialUser, now1: int, now2: int)
    ensures UpdateSocialCredential(UpdateSocialCredential(c, su, now1), su, now2) == UpdateSocialCredential(c, su, now2)
    ensures UpdateSocialCredential(c, su, now1).(expiresAt := None) == UpdateSocialCredential(c, su, now2).(expiresAt := None)
  {
  }

  /** As written, the avatar column holds the display name: a user with a picture and a different name shows the discrepancy. */
  lemma AvatarAsWrittenIsName(c: Credential, now: int)
    ensures var su := SocialUser(Some("id-1"), None, Some("Ann"), None, Some("https://img/ann.png"), Some("t"), None, None, None, map[]);
      UpdateSocialCredentialAsWritten(c, su, now).avatar == Some("Ann")
      && UpdateSocialCredentialAsWritten(c, su, now).avatar != su.avatar
  {
  }

  /** The attributes `make` receives on registration, with the lookup key under provider_name. */
  function RegistrationAttributes(provider: string, su: SocialUser): Attributes {
    map["provider_name" := Some(provider), "provider_id" := su.id]
  }

  /** The attributes as the source writes them, under the key 'provider', which is not fillable. */
  function RegistrationAttributesAsWritten(provider: string, su: SocialUser): Attributes {
    map["provider" := Some(provider), "provider_id" := su.id]
  }

  /** As written, the registered credential has a null provider_name, so the same social user is never found again. */
  lemma RegistrationAsWrittenIsNotFound(s: Store, provider: string, su: SocialUser, owner: Owner, id: nat, now: int)
    requires FindUserBySocialiteUser(s, provider, su).None?
    ensures var c := UpdateSocialCredential(Make(id, owner, RegistrationAttributesAsWritten(provider, su)), su, now);
      c.providerName == None && FindUserBySocialiteUser(Insert(s, c), provider, su).None?
  {
    var c := UpdateSocialCredential(Make(id, owner, RegistrationAttributesAsWritten(provider, su)), su, now);
    assert "provider" !in Fillable;
    assert !Satisfies(c, ByKey(Some(provider), su.id));
    var s' := Insert(s, c);
    forall i | 0 <= i < |s'| ensures !Satisfies(s'[i], ByKey(Some(provider), su.id)) {
      if i < |s| { assert s'[i] == s[i]; }
    }
  }

  /**
   * As written, a second callback for the same identity registers again, and
   * the table then holds two rows with the same lookup key (null, social id):
   * unique lookup keys hold only with the corrected key.
   */
  lemma RegistrationAsWrittenDuplicatesKey(s: Store, provider: string, su: SocialUser,
                                           owner1: Owner, owner2: Owner, id1: nat, id2: nat, now1: int, now2: int)
    requires FindUserBySocialiteUser(s, provider, su).None?
    ensures var c1 := UpdateSocialCredential(Make(id1, owner1, RegistrationAttributesAsWritten(provider, su)), su, now1);
      var c2 := UpdateSocialCredential(Make(id2, owner2, RegistrationAttributesAsWritten(provider, su)), su, now2);
      && FindUserBySocialiteUser(Insert(s, c1), provider, su).None?
      && !UniqueKeys(Insert(Insert(s, c1), c2))
  {
    var c1 := UpdateSocialCredential(Make(id1, owner1, RegistrationAttributesAsWritten(provider, su)), su, now1);
    var c2 := UpdateSocialCredential(Make(id2, owner2, RegistrationAttributesAsWritten(provider, su)), su, now2);
    RegistrationAsWrittenIsNotFound(s, provider, su, owner1, id1, now1);
    assert "provider" !in Fillable;
    var t := Insert(Insert(s, c1), c2);
    assert t[|s|] == c1 && t[|s| + 1] == c2;
    assert t[|s|].providerName == t[|s| + 1].providerName && t[|s|].providerId == t[|s| + 1].providerId;
  }

  /** `redirectAfterAuthenticated`: the `authenticated` hook, else the intended page or home. */
  function RedirectAfterAuthenticated(hooks: Hooks): Response {
    Hooked(hooks.authenticated, RedirectIntendedHome)
  }

  /** `redirectAfterRegistered`: the `registered` hook, else `redirectAfterAuthenticated`. */
  function RedirectAfterRegistered(hooks: Hooks): Response {
    Hooked(hooks.registered, RedirectAfterAuthenticated(hooks))
  }

  /** With both hooks left at their null default, both paths end on the intended page or home. */
  lemma DefaultHooksRedirectHome(hooks: Hooks)
    ensures hooks.authenticated.None? ==> RedirectAfterAuthenticated(hooks) == RedirectIntendedHome
    ensures hooks.registered.None? ==> RedirectAfterRegistered(hooks) == RedirectAfterAuthenticated(hooks)
    ensures hooks.registered.Some? ==> RedirectAfterRegistered(hooks) == hooks.registered.value
  {
  }

  /**
   * The owner found by key has a credential for the provider; with one row per
   * (owner, provider) it is the very row the key matched.
   */
  lemma FoundOwnerHasCredential(s: Store, provider: string, su: SocialUser)
    requires FindUserBySocialiteUser(s, provider, su).Some?
    ensures GetSocialCredential(s, FindUserBySocialiteUser(s, provider, su).value, provider).Some?
    ensures OnePerOwnerProvider(s) ==>
      GetSocialCredential(s, FindUserBySocialiteUser(s, provider, su).value, provider)
        == FirstIndex(s, ByKey(Some(provider), su.id))
  {
    var owner := FindUserBySocialiteUser(s, provider, su).value;
    var q := ByKey(Some(provider), su.id);
    var i := FirstIndex(s, q).value;
    assert s[i].owner == owner && s[i].providerName == Some(provider);
    if OnePerOwnerProvider(s) {
      UniqueOwnerMatch(s, ByOwner(owner, Some(provider)), i);
    }
  }

  /**
   * The login part of `callback`, after the allow-list check, the fetch of the
   * social user and the link branch: log in the owner of a known social
   * identity, or reject a duplicate email, or register a new account.
   * `emailTaken` is the result of `emailAlreadyRegistered` (false by default)
   * and `newUser` the account `registerWith` returns.
   */
  function LoginSpec(w: World, provider: string, su: SocialUser, now: int,
                     emailTaken: bool, newUser: Owner, hooks: Hooks): (r: Step)
    ensures r.outcome.LoggedIn? || r.outcome.DuplicateEmail? || r.outcome.Registered?
    ensures r.world.events == w.events
    ensures r.world.nextId == (if r.outcome.Registered? then w.nextId + 1 else w.nextId)
    ensures r.world.user != w.user ==> r.outcome.LoggedIn?
  {
    var found := FindUserBySocialiteUser(w.store, provider, su);
    if found.Some? then
      var owner := found.value;
      FoundOwnerHasCredential(w.store, provider, su);
      var k := GetSocialCredential(w.store, owner, provider).value;
      var c := UpdateSocialCredential(w.store[k], su, now);
      Step(w.(store := w.store[k := c], user := Some(owner), calls := w.calls + [Login(owner)]),
           LoggedIn(owner, c.id), RedirectAfterAuthenticated(hooks))
    else if emailTaken then
      Step(w, DuplicateEmail(provider), RedirectBack)
    else
      var c := UpdateSocialCredential(Make(w.nextId, newUser, RegistrationAttributes(provider, su)), su, now);
      Step(w.(store := Insert(w.store, c), nextId := w.nextId + 1, calls := w.calls + [RegisterWith(provider)]),
           Registered(newUser, c.id), RedirectAfterRegistered(hooks))
  }

  /**
   * A known social identity logs its owner in through the guard: only that
   * owner's credential for the provider is refreshed, no account is registered
   * and no row is added.
   */
  lemma LoginExistingLogsInOwner(w: World, provider: string, su: SocialUser, now: int,
                                 emailTaken: bool, newUser: Owner, hooks: Hooks)
    requires FindUserBySocialiteUser(w.store, provider, su).Some?
    ensures var owner := FindUserBySocialiteUser(w.store, provider, su).value;
      var r := LoginSpec(w, provider, su, now, emailTaken, newUser, hooks);
      && r.outcome.LoggedIn? && r.outcome.user == owner
      && r.world.user == Some(owner)
      && r.world.calls == w.calls + [Login(owner)]
      && r.world.nextId == w.nextId && r.world.events == w.events
      && |r.world.store| == |w.store|
      && exists k :: 0 <= k < |w.store|
           && k == GetSocialCredential(w.store, owner, provider).value
           && w.store[k].owner == owner && w.store[k].providerName == Some(provider)
           && r.world.store == w.store[k := UpdateSocialCredential(w.store[k], su, now)]
           && r.outcome.credential == w.store[k].id
  {
    var owner := FindUserBySocialiteUser(w.store, provider, su).value;
    FoundOwnerHasCredential(w.store, provider, su);
    var k := GetSocialCredential(w.store, owner, provider).value;
    assert w.store[k].owner == owner && w.store[k].providerName == Some(provider);
  }

  /** With one row per (owner, provider), the refreshed row is exactly the one matched by key. */
  lemma LoginRefreshesMatchedRow(w: World, provider: string, su: SocialUser, now: int,
                                 emailTaken: bool, newUser: Owner, hooks: Hooks, j: nat)
    requires UniqueKeys(w.store) && OnePerOwnerProvider(w.store)
    requires j < |w.store| && Satisfies(w.store[j], ByKey(Some(provider), su.id))
    ensures LoginSpec(w, provider, su, now, emailTaken, newUser, hooks).world.store
            == w.store[j := UpdateSocialCredential(w.store[j], su, now)]
  {
    var owner := FindUserBySocialiteUser(w.store, provider, su).value;
    assert owner == w.store[j].owner;
    FoundOwnerHasCredential(w.store, provider, su);
    UniqueOwnerMatch(w.store, ByOwner(owner, Some(provider)), j);
  }

  /** With no email hook, a duplicate-email rejection cannot happen; with one, it leaves the world untouched. */
  lemma DuplicateEmailOnlyFromHook(w: World, provider: string, su: SocialUser, now: int,
                                   emailTaken: bool, newUser: Owner, hooks: Hooks)
    ensures var r := LoginSpec(w, provider, su, now, emailTaken, newUser, hooks);
      r.outcome.DuplicateEmail? ==>
        (emailTaken && r.world == w && FindUserBySocialiteUser(w.store, provider, su).None?)
    ensures !emailTaken ==> !LoginSpec(w, provider, su, now, emailTaken, newUser, hooks).outcome.DuplicateEmail?
  {
  }

  /**
   * Registration calls `registerWith` exactly once and appends one credential
   * owned by the new account, keyed by the provider and the social user's id,
   * which the next login callback finds.
   */
  lemma RegistrationAttachesCredential(w: World, provider: string, su: SocialUser, now: int,
                                       newUser: Owner, hooks: Hooks)
    requires FindUserBySocialiteUser(w.store, provider, su).None?
    ensures var r := LoginSpec(w, provider, su, now, false, newUser, hooks);
      && r.outcome == Registered(newUser, w.nextId)
      && r.world.calls == w.calls + [RegisterWith(provider)]
      && r.world.user == w.user
      && |r.world.store| == |w.store| + 1 && r.world.store[..|w.store|] == w.store
      && r.world.store[|w.store|].owner == newUser
      && r.world.store[|w.store|].providerName == Some(provider)
      && r.world.store[|w.store|].providerId == su.id
      && r.world.store[|w.store|].id == w.nextId
      && FindUserBySocialiteUser(r.world.store, provider, su) == Some(newUser)
  {
    var r := LoginSpec(w, provider, su, now, false, newUser, hooks);
    var c := UpdateSocialCredential(Make(w.nextId, newUser, RegistrationAttributes(provider, su)), su, now);
    assert r.world.store == w.store + [c];
    assert Satisfies(c, ByKey(Some(provider), su.id));
    var q := ByKey(Some(provider), su.id);
    assert FirstIndex(r.world.store, q) == Some(|w.store|) by {
      forall j | 0 <= j < |w.store| ensures !Satisfies(r.world.store[j], q) {
        assert r.world.store[j] == w.store[j];
      }
    }
  }

  /** The login part keeps primary keys distinct and lookup keys unique. */
  lemma LoginKeepsValid(w: World, provider: string, su: SocialUser, now: int,
                        emailTaken: bool, newUser: Owner, hooks: Hooks)
    requires Valid(w)
    ensures Valid(LoginSpec(w, provider, su, now, emailTaken, newUser, hooks).world)
  {
    var found := FindUserBySocialiteUser(w.store, provider, su);
    if found.Some? {
      FoundOwnerHasCredential(w.store, provider, su);
      var k := GetSocialCredential(w.store, found.value, provider).value;
      ReplaceKeepsInvariants(w.store, k, UpdateSocialCredential(w.store[k], su, now));
    } else if !emailTaken {
      var c := UpdateSocialCredential(Make(w.nextId, newUser, RegistrationAttributes(provider, su)), su, now);
      InsertKeepsUniqueKeys(w.store, c);
      InsertKeepsDistinctIds(w.store, c);
    }
  }

  /** A freshly registered account that owned nothing keeps the table at one row per (owner, provider). */
  lemma LoginKeepsOnePerOwnerProvider(w: World, provider: string, su: SocialUser, now: int,
                                      emailTaken: bool, newUser: Owner, hooks: Hooks)
    requires OnePerOwnerProvider(w.store)
    requires SocialCredentials(w.store, newUser) == []
    ensures OnePerOwnerProvider(LoginSpec(w, provider, su, now, emailTaken, newUser, hooks).world.store)
  {
    var found := FindUserBySocialiteUser(w.store, provider, su);
    if found.Some? {
      FoundOwnerHasCredential(w.store, provider, su);
      var k := GetSocialCredential(w.store, found.value, provider).value;
      ReplaceKeepsInvariants(w.store, k, UpdateSocialCredential(w.store[k], su, now));
    } else if !emailTaken {
      var c := UpdateSocialCredential(Make(w.nextId, newUser, RegistrationAttributes(provider, su)), su, now);
      forall j | 0 <= j < |w.store| ensures !Satisfies(w.store[j], ByOwner(c.owner, c.providerName)) {
        assert w.store[j] !in SocialCredentials(w.store, newUser);
      }
      InsertKeepsOnePerOwnerProvider(w.store, c);
    }
  }

  /** Logging in twice with the same social user stores the same row as logging in once, apart from the expiry. */
  lemma LoginTwiceSameFields(w: World, provider: string, su: SocialUser, now1: int, now2: int,
                             newUser: Owner, hooks: Hooks)
    requires FindUserBySocialiteUser(w.store, provider, su).Some?
    ensures var r1 := LoginSpec(w, provider, su, now1, false, newUser, hooks);
      var r2 := LoginSpec(r1.world, provider, su, now2, false, newUser, hooks);
      && r2.outcome.LoggedIn? && |r2.world.store| == |w.store|
      && forall j :: 0 <= j < |w.store| ==> r2.world.store[j].(expiresAt := None) == r1.world.store[j].(expiresAt := None)
  {
    var owner := FindUserBySocialiteUser(w.store, provider, su).value;
    FoundOwnerHasCredential(w.store, provider, su);
    var k := GetSocialCredential(w.store, owner, provider).value;
    var c := UpdateSocialCredential(w.store[k], su, now1);
    var r1 := LoginSpec(w, provider, su, now1, false, newUser, hooks);
    assert r1.world.store == w.store[k := c];
    RefreshKeepsLookups(w.store, k, c, provider, su, owner);
    FoundOwnerHasCredential(r1.world.store, provider, su);
    UpdateSocialCredentialIdempotent(w.store[k], su, now1, now2);
  }

  /** Rewriting a row without touching its owner or lookup key changes the answer of neither lookup. */
  lemma RefreshKeepsLookups(s: Store, k: nat, c: Credential, provider: string, su: SocialUser, owner: Owner)
    requires k < |s|
    requires c.owner == s[k].owner && c.providerName == s[k].providerName && c.providerId == s[k].providerId
    ensures FindUserBySocialiteUser(s[k := c], provider, su) == FindUserBySocialiteUser(s, provider, su)
    ensures GetSocialCredential(s[k := c], owner, provider) == GetSocialCredential(s, owner, provider)
  {
    var t := s[k := c];
    var q := ByKey(Some(provider), su.id);
    assert forall j :: 0 <= j < |s| ==> (Satisfies(t[j], q) <==> Satisfies(s[j], q));
    FirstIndexSameMatches(s, t, q);
    var qo := ByOwner(owner, Some(provider));
    assert forall j :: 0 <= j < |s| ==> (Satisfies(t[j], qo) <==> Satisfies(s[j], qo));
    FirstIndexSameMatches(s, t, qo);
  }

  /** Two tables of the same length that agree on which rows satisfy a query agree on its first match. */
  lemma {:induction false} FirstIndexSameMatches(s: Store, t: Store, q: Query)
    requires |s| == |t|
    requires forall j :: 0 <= j < |s| ==> (Satisfies(s[j], q) <==> Satisfies(t[j], q))
    ensures FirstIndex(s, q) == FirstIndex(t, q)
  {
    if |s| > 0 && !Satisfies(s[0], q) {
      FirstIndexSameMatches(s[1..], t[1..], q);
    }
  }
}
