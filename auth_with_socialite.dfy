/**
 * The older AuthWithSocialite controller mixin: find-or-new on
 * (provider_id, provider_name), fill, associate a new owner, save, log in.
 */
module AuthWithSocialite {
  import opened Wrappers
  import opened SocialCredential
  import opened CredentialStore
  import opened Socialite
  import opened Flow

  /** `allowedProvider`: the configuration has `services.{provider}`. */
  function AllowedProvider(config: set<string>, provider: string): bool {
    "services." + provider in config
  }

  /**
   * The `fill` of this variant: the expiry has no null guard (an absent
   * lifetime adds zero seconds) and the refresh token has no token-secret
   * fallback; `raw` is not written.
   */
  function Fill(c: Credential, su: SocialUser, provider: string, now: int): Credential {
    c.(accessToken := su.token,
       avatar := su.avatar,
       email := su.email,
       expiresAt := Some(now + su.expiresIn.GetOr(0)),
       name := su.name,
       nickname := su.nickname,
       providerId := su.id,
       providerName := Some(provider),
       refreshToken := su.refreshToken)
  }

  /** The row `firstOrNew` makes when no row has the key: only the key columns are set. */
  function NewCredential(id: nat, su: SocialUser, provider: string): Credential {
    Credential(id, Owner("", 0), Some(provider), su.id, None, None, None, None, None, None, None, map[])
  }

  /** `redirectToProvider`: abort with 400 for a disallowed provider, else redirect to it. Nothing is changed. */
  function RedirectToProviderSpec(w: World, config: set<string>, provider: string): (r: Step)
    ensures r.world == w
  {
    if !AllowedProvider(config, provider) then Step(w, ProviderRejected(provider), AbortBadRequest)
    else Step(w, RedirectedToProvider(provider), RedirectToProvider(provider))
  }

  /** What `createCredentials` ends with: the saved row's position, or a failed save. */
  datatype Created = Saved(world: World, index: nat) | NotSaved(world: World)

  /**
   * `createCredentials`: reuse the row with key (provider, social id) when
   * there is one, keeping its owner; otherwise make one and ask
   * `findOrCreateUser` (which returns `newUser`) for its owner. `saveFails`
   * says whether `saveOrFail` throws, in which case no row is written.
   */
  function CreateCredentialsSpec(w: World, provider: string, su: SocialUser, now: int,
                                 newUser: Owner, saveFails: bool): (r: Created)
    ensures r.world.events == w.events && r.world.user == w.user
    ensures r.NotSaved? ==> r.world.store == w.store && r.world.nextId == w.nextId
  {
    var i := FirstIndex(w.store, ByKey(Some(provider), su.id));
    if i.Some? then
      var c := Fill(w.store[i.value], su, provider, now);
      if saveFails then NotSaved(w)
      else Saved(w.(store := w.store[i.value := c]), i.value)
    else
      var c := Fill(NewCredential(w.nextId, su, provider), su, provider, now).(owner := newUser);
      var w1 := w.(calls := w.calls + [FindOrCreateUser(provider)]);
      if saveFails then NotSaved(w1)
      else Saved(w1.(store := Insert(w.store, c), nextId := w.nextId + 1), |w.store|)
  }

  /**
   * `handleProviderCallback`: abort with 400 for a disallowed provider; fetch
   * the social user; create or refresh the credential; log its owner in. An
   * exception from the fetch (`fetchFails`) or from `saveOrFail` (`saveFails`)
   * escapes the controller, and nobody is logged in.
   */
  function HandleProviderCallbackSpec(w: World, config: set<string>, provider: string, fetchFails: bool,
                                      su: SocialUser, now: int, newUser: Owner, saveFails: bool,
                                      authenticated: Option<Response>, redirectPath: string): (r: Step)
    ensures r.world.events == w.events
    ensures r.world.user != w.user ==> r.outcome.LoggedIn?
  {
    if !AllowedProvider(config, provider) then
      Step(w, ProviderRejected(provider), AbortBadRequest)
    else
      var fetched := w.(calls := w.calls + [FetchSocialUser(provider)]);
      if fetchFails then Step(fetched, FetchFailed(provider), Thrown)
      else
        match CreateCredentialsSpec(fetched, provider, su, now, newUser, saveFails)
        case NotSaved(w1) => Step(w1, Outcome.SaveFailed, Thrown)
        case Saved(w1, i) =>
          var owner := w1.store[i].owner;
          Step(w1.(user := Some(owner), calls := w1.calls + [Login(owner)]),
               LoggedIn(owner, w1.store[i].id), authenticated.GetOr(RedirectIntended(redirectPath)))
  }

  /**
   * Both entry points answer a provider outside the configuration, and only
   * such a provider, with the 400 rejection, and change nothing for it.
   */
  lemma EntryPointsRejectDisallowed(w: World, config: set<string>, provider: string, fetchFails: bool,
                                    su: SocialUser, now: int, newUser: Owner, saveFails: bool,
                                    authenticated: Option<Response>, redirectPath: string)
    ensures var r := RedirectToProviderSpec(w, config, provider);
      && r.world == w
      && (r.response == AbortBadRequest <==> !("services." + provider in config))
    ensures var r := HandleProviderCallbackSpec(w, config, provider, fetchFails, su, now, newUser, saveFails,
                                                authenticated, redirectPath);
      && (!("services." + provider in config) ==> r == Step(w, ProviderRejected(provider), AbortBadRequest))
      && (r.outcome.ProviderRejected? <==> !("services." + provider in config))
      && ("services." + provider in config && !fetchFails && !saveFails ==> r.outcome.LoggedIn?)
  {
  }

  /** A saved position is a row of the new table holding the social user's key. */
  lemma CreateCredentialsSavesKey(w: World, provider: string, su: SocialUser, now: int, newUser: Owner)
    requires CreateCredentialsSpec(w, provider, su, now, newUser, false).Saved?
    ensures var r := CreateCredentialsSpec(w, provider, su, now, newUser, false);
      r.index < |r.world.store| && Satisfies(r.world.store[r.index], ByKey(Some(provider), su.id))
  {
  }

  /**
   * An existing row is reused: it keeps its owner, primary key and position,
   * has its token and profile columns overwritten, and `findOrCreateUser` is
   * not called. Nothing else changes.
   */
  lemma CreateCredentialsReusesRow(w: World, provider: string, su: SocialUser, now: int, newUser: Owner, j: nat)
    requires UniqueKeys(w.store)
    requires j < |w.store| && Satisfies(w.store[j], ByKey(Some(provider), su.id))
    ensures CreateCredentialsSpec(w, provider, su, now, newUser, false)
            == Saved(w.(store := w.store[j := Fill(w.store[j], su, provider, now)]), j)
    ensures Fill(w.store[j], su, provider, now).owner == w.store[j].owner
    ensures Fill(w.store[j], su, provider, now).id == w.store[j].id
  {
    UniqueKeyMatch(w.store, ByKey(Some(provider), su.id), j);
  }

  /** A new key calls `findOrCreateUser` once, and the user it returns owns the new row. */
  lemma CreateCredentialsNewOwner(w: World, provider: string, su: SocialUser, now: int, newUser: Owner)
    requires FirstIndex(w.store, ByKey(Some(provider), su.id)).None?
    ensures var r := CreateCredentialsSpec(w, provider, su, now, newUser, false);
      && r.Saved? && r.index == |w.store|
      && r.world.calls == w.calls + [FindOrCreateUser(provider)]
      && r.world.store[..|w.store|] == w.store
      && r.world.store[r.index].owner == newUser
      && r.world.store[r.index].id == w.nextId
  {
  }

  /** After a save, exactly one row holds the key (provider, social id): the saved one. */
  lemma CreateCredentialsExactlyOne(w: World, provider: string, su: SocialUser, now: int, newUser: Owner)
    requires Valid(w)
    ensures var r := CreateCredentialsSpec(w, provider, su, now, newUser, false);
      && Valid(r.world)
      && forall j :: 0 <= j < |r.world.store| && Satisfies(r.world.store[j], ByKey(Some(provider), su.id)) ==> j == r.index
  {
    var q := ByKey(Some(provider), su.id);
    var i := FirstIndex(w.store, q);
    if i.Some? {
      ReplaceKeepsInvariants(w.store, i.value, Fill(w.store[i.value], su, provider, now));
    } else {
      var c := Fill(NewCredential(w.nextId, su, provider), su, provider, now).(owner := newUser);
      InsertKeepsUniqueKeys(w.store, c);
      InsertKeepsDistinctIds(w.store, c);
    }
  }

  /** The expiry of this variant is always set, and the token secret is never used. */
  lemma FillTokenColumns(c: Credential, su: SocialUser, provider: string, now: int)
    ensures Fill(c, su, provider, now).expiresAt.Some?
    ensures su.expiresIn.Some? ==> Fill(c, su, provider, now).expiresAt == Some(now + su.expiresIn.value)
    ensures Fill(c, su, provider, now).refreshToken == su.refreshToken
    ensures Fill(c, su, provider, now).raw == c.raw
  {
  }

  /**
   * The logged-in user is the owner of the saved row; a failed fetch or a
   * failed save escapes as an exception, writes no row and logs nobody in; a
   * disallowed provider aborts with 400 and changes nothing.
   */
  lemma HandleProviderCallbackLogsInOwner(w: World, config: set<string>, provider: string, fetchFails: bool,
                                          su: SocialUser, now: int, newUser: Owner, saveFails: bool,
                                          authenticated: Option<Response>, redirectPath: string)
    ensures var r := HandleProviderCallbackSpec(w, config, provider, fetchFails, su, now, newUser, saveFails,
                                                authenticated, redirectPath);
      && (!AllowedProvider(config, provider) ==> r.world == w && r.response == AbortBadRequest)
      && (AllowedProvider(config, provider) && (fetchFails || saveFails) ==>
            r.world.store == w.store && r.world.user == w.user && r.response == Thrown
            && r.outcome == (if fetchFails then FetchFailed(provider) else Outcome.SaveFailed)
            && forall k :: |w.calls| <= k < |r.world.calls| ==> !r.world.calls[k].Login?)
      && (AllowedProvider(config, provider) && !fetchFails && !saveFails ==>
            exists i :: 0 <= i < |r.world.store| && Satisfies(r.world.store[i], ByKey(Some(provider), su.id))
              && r.world.user == Some(r.world.store[i].owner)
              && r.outcome == LoggedIn(r.world.store[i].owner, r.world.store[i].id))
  {
    if AllowedProvider(config, provider) && !fetchFails {
      var fetched := w.(calls := w.calls + [FetchSocialUser(provider)]);
      var created := CreateCredentialsSpec(fetched, provider, su, now, newUser, saveFails);
      if !saveFails {
        CreateCredentialsSavesKey(fetched, provider, su, now, newUser);
        var i := created.index;
        var r := HandleProviderCallbackSpec(w, config, provider, fetchFails, su, now, newUser, saveFails,
                                            authenticated, redirectPath);
        assert r.world.store == created.world.store;
        assert r.world.user == Some(r.world.store[i].owner);
      }
    }
  }

  class SocialiteLogin {
    const config: set<string>
    /** The path `redirectPath()` gives. */
    const redirectPath: string
    /** The host controller's `authenticated` hook; None is its empty default. */
    const authenticated: Option<Response>

    var store: Store
    var nextId: nat
    var user: Option<Owner>
    var events: seq<Event>
    var calls: seq<Call>

    function State(): World
      reads this
    {
      World(store, nextId, user, events, calls)
    }

    ghost predicate Valid()
      reads this
    {
      Flow.Valid(State())
    }

    constructor (config: set<string>, redirectPath: string, authenticated: Option<Response>)
      ensures this.config == config && this.redirectPath == redirectPath && this.authenticated == authenticated
      ensures State() == World([], 0, None, [], [])
      ensures Valid()
    {
      this.config := config;
      this.redirectPath := redirectPath;
      this.authenticated := authenticated;
      store, nextId, user, events, calls := [], 0, None, [], [];
    }

    /** `redirectToProvider`; it reads the configuration and changes nothing. */
    method RedirectToProvider(provider: string) returns (outcome: Outcome, response: Response)
      ensures Step(State(), outcome, response) == RedirectToProviderSpec(State(), config, provider)
    {
      if !AllowedProvider(config, provider) {
        return ProviderRejected(provider), AbortBadRequest;
      }
      return RedirectedToProvider(provider), Response.RedirectToProvider(provider);
    }

    /** `createCredentials`; `newUser` is what `findOrCreateUser` returns, `saveFails` whether `saveOrFail` throws. */
    method CreateCredentials(provider: string, su: SocialUser, now: int, newUser: Owner, saveFails: bool)
      returns (saved: bool, index: nat)
      requires Valid()
      modifies this
      ensures Valid()
      ensures var r := CreateCredentialsSpec(old(State()), provider, su, now, newUser, saveFails);
        State() == r.world && saved == r.Saved? && (saved ==> index == r.index)
    {
      if !saveFails {
        CreateCredentialsExactlyOne(State(), provider, su, now, newUser);
      }
      var i := FirstIndex(store, ByKey(Some(provider), su.id));
      var credential: Credential;
      var existing := i.Some?;
      if existing {
        credential := Fill(store[i.value], su, provider, now);
      } else {
        credential := Fill(NewCredential(nextId, su, provider), su, provider, now);
        calls := calls + [FindOrCreateUser(provider)];
        credential := credential.(owner := newUser);
      }
      if saveFails {
        return false, 0;
      }
      if existing {
        store := store[i.value := credential];
        index := i.value;
      } else {
        index := |store|;
        store := Insert(store, credential);
        nextId := nextId + 1;
      }
      saved := true;
    }

    /** `handleProviderCallback`: abort, let an exception escape, or save the credential and log its owner in. */
    method HandleProviderCallback(provider: string, fetchFails: bool, su: SocialUser, now: int, newUser: Owner,
                                  saveFails: bool)
      returns (outcome: Outcome, response: Response)
      requires Valid()
      modifies this
      ensures Valid()
      ensures Step(State(), outcome, response)
              == HandleProviderCallbackSpec(old(State()), config, provider, fetchFails, su, now, newUser, saveFails,
                                            authenticated, redirectPath)
    {
      if !AllowedProvider(config, provider) {
        return ProviderRejected(provider), AbortBadRequest;
      }
      calls := calls + [FetchSocialUser(provider)];
      if fetchFails {
        return FetchFailed(provider), Thrown;
      }
      var saved, i := CreateCredentials(provider, su, now, newUser, saveFails);
      if !saved {
        return Outcome.SaveFailed, Thrown;
      }
      var owner := store[i].owner;
      user := Some(owner);
      calls := calls + [Login(owner)];
      return LoggedIn(owner, store[i].id), authenticated.GetOr(RedirectIntended(redirectPath));
    }
  }
}
