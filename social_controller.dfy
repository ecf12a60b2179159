/**
 * The social controller, which mixes in both HandleSocialAuthenticate and
 * HandleSocialLink: the `callback` entry point and the link endpoints as
 * methods that change the controller's state step by step.
 */
module SocialController {
  import opened Wrappers
  import opened SocialCredential
  import opened CredentialStore
  import opened HasSocialCredentials
  import opened Socialite
  import opened Flow
  import opened HandleSocialAuthenticate
  import opened HandleSocialLink

  /**
   * `callback`: reject a disallowed provider before anything else; fetch the
   * social user, whose exception (`fetchFails`) escapes the controller; take
   * the link branch for an authenticated request; else the login part.
   */
  function CallbackSpec(w: World, config: set<string>, hasLinkCallback: bool, hooks: Hooks,
                        provider: string, fetchFails: bool, su: SocialUser, now: int,
                        emailTaken: bool, newUser: Owner): (r: Step)
    ensures r.world.events == w.events
    ensures r.world.user != w.user ==> r.outcome.LoggedIn?
  {
    if !IsAllowedProvider(config, provider) then
      Step(w, ProviderRejected(provider), RedirectBack)
    else
      var fetched := w.(calls := w.calls + [FetchSocialUser(provider)]);
      if fetchFails then
        Step(fetched, FetchFailed(provider), Thrown)
      else if IsLinkCallbackRequest(hasLinkCallback, w.user) then
        LinkCallbackSpec(fetched, provider, w.user.value, su, now, hooks)
      else
        LoginSpec(fetched, provider, su, now, emailTaken, newUser, hooks)
  }

  /** A disallowed provider is rejected before the social user is fetched or the table is read. */
  lemma CallbackDisallowedTouchesNothing(w: World, config: set<string>, hasLinkCallback: bool, hooks: Hooks,
                                         provider: string, fetchFails: bool, su: SocialUser, now: int,
                                         emailTaken: bool, newUser: Owner)
    requires !("services." + provider in config)
    ensures CallbackSpec(w, config, hasLinkCallback, hooks, provider, fetchFails, su, now, emailTaken, newUser)
            == Step(w, ProviderRejected(provider), RedirectBack)
  {
  }

  /** A failed fetch of the social user escapes with only the fetch recorded: nothing is read or written. */
  lemma CallbackFetchFailure(w: World, config: set<string>, hasLinkCallback: bool, hooks: Hooks,
                             provider: string, su: SocialUser, now: int, emailTaken: bool, newUser: Owner)
    requires "services." + provider in config
    ensures CallbackSpec(w, config, hasLinkCallback, hooks, provider, true, su, now, emailTaken, newUser)
            == Step(w.(calls := w.calls + [FetchSocialUser(provider)]), FetchFailed(provider), Thrown)
  {
  }

  /**
   * For an authenticated request with the link mixin present, the link branch
   * decides: nobody is logged in or registered, and the outcome is one of the
   * three link outcomes.
   */
  lemma CallbackLinkBranchFirst(w: World, config: set<string>, hooks: Hooks,
                                provider: string, su: SocialUser, now: int, emailTaken: bool, newUser: Owner)
    requires "services." + provider in config && w.user.Some?
    ensures var r := CallbackSpec(w, config, true, hooks, provider, false, su, now, emailTaken, newUser);
      && r.world.calls == w.calls + [FetchSocialUser(provider)]
      && r.world.user == w.user
      && (r.outcome.AlreadyLinked? || r.outcome.LinkedToAnother? || r.outcome == Linked(w.user.value, w.nextId))
  {
  }

  /** Without an authenticated user, or without the link mixin, the login part decides. */
  lemma CallbackLoginBranch(w: World, config: set<string>, hasLinkCallback: bool, hooks: Hooks,
                            provider: string, su: SocialUser, now: int, emailTaken: bool, newUser: Owner)
    requires "services." + provider in config && (w.user.None? || !hasLinkCallback)
    ensures var r := CallbackSpec(w, config, hasLinkCallback, hooks, provider, false, su, now, emailTaken, newUser);
      && (r.outcome.LoggedIn? || r.outcome.DuplicateEmail? || r.outcome.Registered?)
      && |r.world.calls| == |w.calls| + (if r.outcome.DuplicateEmail? then 1 else 2)
      && r.world.calls[|w.calls|] == FetchSocialUser(provider)
  {
  }

  /**
   * `isLinkCallbackRequest` decides the branch: after a successful fetch, the
   * outcome is a link outcome exactly when `linkCallback` exists and the
   * request is authenticated.
   */
  lemma LinkBranchIffLinkCallbackRequest(w: World, config: set<string>, hasLinkCallback: bool, hooks: Hooks,
                                         provider: string, su: SocialUser, now: int, emailTaken: bool, newUser: Owner)
    requires "services." + provider in config
    ensures var r := CallbackSpec(w, config, hasLinkCallback, hooks, provider, false, su, now, emailTaken, newUser);
      (r.outcome.AlreadyLinked? || r.outcome.LinkedToAnother? || r.outcome.Linked?)
      <==> (hasLinkCallback && w.user.Some?)
  {
    if !(hasLinkCallback && w.user.Some?) {
      CallbackLoginBranch(w, config, hasLinkCallback, hooks, provider, su, now, emailTaken, newUser);
    }
  }

  /** Every callback keeps primary keys distinct and lookup keys unique. */
  lemma CallbackKeepsValid(w: World, config: set<string>, hasLinkCallback: bool, hooks: Hooks,
                           provider: string, fetchFails: bool, su: SocialUser, now: int,
                           emailTaken: bool, newUser: Owner)
    requires Valid(w)
    ensures Valid(CallbackSpec(w, config, hasLinkCallback, hooks, provider, fetchFails, su, now, emailTaken, newUser).world)
  {
    if IsAllowedProvider(config, provider) && !fetchFails {
      var fetched := w.(calls := w.calls + [FetchSocialUser(provider)]);
      if IsLinkCallbackRequest(hasLinkCallback, w.user) {
        if !HasSocialCredential(fetched.store, w.user.value, provider) && FirstIndex(fetched.store, ByKey(Some(provider), su.id)).None? {
          var c := UpdateSocialCredential(Make(fetched.nextId, w.user.value, LinkAttributes(provider, su)), su, now);
          InsertKeepsUniqueKeys(fetched.store, c);
          InsertKeepsDistinctIds(fetched.store, c);
        }
      } else {
        LoginKeepsValid(fetched, provider, su, now, emailTaken, newUser, hooks);
      }
    }
  }

  class SocialController {
    /** The configuration keys present, such as `services.github`. */
    const config: set<string>
    /** Whether the controller mixes in HandleSocialLink, so that `linkCallback` exists. */
    const hasLinkCallback: bool
    /** The host controller's overrides of the null-returning hooks. */
    const hooks: Hooks

    var store: Store
    var nextId: nat
    var user: Option<Owner>
    var events: seq<Event>
    var calls: seq<Call>

    function State(): World
      reads this
    {
      World(store, nextId, user, events, calls)
    }

    ghost predicate Valid()
      reads this
    {
      Flow.Valid(State())
    }

    constructor (config: set<string>, hasLinkCallback: bool, hooks: Hooks, user: Option<Owner>)
      ensures this.config == config && this.hasLinkCallback == hasLinkCallback && this.hooks == hooks
      ensures State() == World([], 0, user, [], [])
      ensures Valid()
    {
      this.config := config;
      this.hasLinkCallback := hasLinkCallback;
      this.hooks := hooks;
      store, nextId, this.user, events, calls := [], 0, user, [], [];
    }

    /**
     * The login callback. `fetchFails` says whether fetching the social user
     * throws; `emailTaken` answers `emailAlreadyRegistered`; `newUser` is what
     * `registerWith` returns.
     */
    method Callback(provider: string, fetchFails: bool, su: SocialUser, now: int, emailTaken: bool, newUser: Owner)
      returns (outcome: Outcome, response: Response)
      requires Valid()
      modifies this
      ensures Valid()
      ensures Step(State(), outcome, response)
              == CallbackSpec(old(State()), config, hasLinkCallback, hooks, provider, fetchFails, su, now, emailTaken, newUser)
    {
      CallbackKeepsValid(State(), config, hasLinkCallback, hooks, provider, fetchFails, su, now, emailTaken, newUser);
      if !IsAllowedProvider(config, provider) {
        return ProviderRejected(provider), RedirectBack;
      }
      calls := calls + [FetchSocialUser(provider)];
      if fetchFails {
        return FetchFailed(provider), Thrown;
      }
      if IsLinkCallbackRequest(hasLinkCallback, user) {
        outcome, response := LinkCallback(provider, user.value, su, now);
        return;
      }
      outcome, response := LoginPart(provider, su, now, emailTaken, newUser);
    }

    /**
     * The login part of the callback, after the social user has been fetched:
     * refresh and log in a known identity, reject a duplicate e-mail, or
     * register a new account.
     */
    method LoginPart(provider: string, su: SocialUser, now: int, emailTaken: bool, newUser: Owner)
      returns (outcome: Outcome, response: Response)
      modifies this
      ensures Step(State(), outcome, response) == LoginSpec(old(State()), provider, su, now, emailTaken, newUser, hooks)
    {
      var found := FindUserBySocialiteUser(store, provider, su);
      if found.Some? {
        var owner := found.value;
        FoundOwnerHasCredential(store, provider, su);
        var k := GetSocialCredential(store, owner, provider).value;
        var credential := UpdateSocialCredential(store[k], su, now);
        store := store[k := credential];
        user := Some(owner);
        calls := calls + [Login(owner)];
        return LoggedIn(owner, credential.id), RedirectAfterAuthenticated(hooks);
      }

      if emailTaken {
        return DuplicateEmail(provider), RedirectBack;
      }

      calls := calls + [RegisterWith(provider)];
      var credential := UpdateSocialCredential(Make(nextId, newUser, RegistrationAttributes(provider, su)), su, now);
      store := Insert(store, credential);
      nextId := nextId + 1;
      return Registered(newUser, credential.id), RedirectAfterRegistered(hooks);
    }

    /** The link pre-check; it reads the state and changes nothing. */
    method Link(provider: string) returns (outcome: Outcome, response: Response)
      ensures Step(State(), outcome, response) == LinkSpec(State(), config, provider)
      ensures outcome == AlreadyLinked(provider) ==> user.Some? && GetSocialCredential(store, user.value, provider).Some?
    {
      if !IsAllowedProvider(config, provider) {
        return ProviderRejected(provider), RedirectBack;
      }
      if user.None? {
        return Unauthenticated, RedirectBack;
      }
      if HasSocialCredential(store, user.value, provider) {
        HasIffGet(store, user.value, provider);
        return AlreadyLinked(provider), RedirectIntendedHome;
      }
      return RedirectedToProvider(provider), RedirectToProvider(provider);
    }

    /** Unlink the authenticated user's credential for the provider. */
    method Unlink(provider: string) returns (outcome: Outcome, response: Response)
      requires Valid()
      modifies this
      ensures Valid()
      ensures Step(State(), outcome, response) == UnlinkSpec(old(State()), config, provider, hooks)
    {
      UnlinkKeepsInvariants(State(), config, provider, hooks);
      if !IsAllowedProvider(config, provider) {
        return ProviderRejected(provider), RedirectBack;
      }
      if user.None? {
        return Unauthenticated, RedirectBack;
      }
      var u := user.value;
      var k := GetSocialCredential(store, u, provider);
      if k.Some? {
        store := Delete(store, k.value);
      }
      events := events + [Event.Unlinked(u, provider)];
      return Outcome.Unlinked(u, provider), Hooked(hooks.unlinked, RedirectHome);
    }

    /** The link callback for the authenticated `u`. */
    method LinkCallback(provider: string, u: Owner, su: SocialUser, now: int) returns (outcome: Outcome, response: Response)
      modifies this
      ensures Step(State(), outcome, response) == LinkCallbackSpec(old(State()), provider, u, su, now, hooks)
    {
      if HasSocialCredential(store, u, provider) {
        return AlreadyLinked(provider), RedirectIntendedHome;
      }
      if FirstIndex(store, ByKey(Some(provider), su.id)).Some? {
        return LinkedToAnother(provider), RedirectIntendedHome;
      }
      var credential := Make(nextId, u, LinkAttributes(provider, su));
      credential := UpdateSocialCredential(credential, su, now);
      store := Insert(store, credential);
      nextId := nextId + 1;
      return Linked(u, credential.id), Hooked(hooks.linked, RedirectHome);
    }
  }
}
