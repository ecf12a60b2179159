/**
 * The HandleSocialLink controller mixin: the link pre-check, the link
 * callback that attaches a new social identity to the authenticated account,
 * and unlinking.
 */
module HandleSocialLink {
  import opened Wrappers
  import opened SocialCredential
  import opened CredentialStore
  import opened HasSocialCredentials
  import opened Socialite
  import opened Flow
  import opened HandleSocialAuthenticate

  /**
   * `link`: reject a disallowed provider, report a provider the user already
   * has, otherwise redirect to the provider. Nothing is changed.
   */
  function LinkSpec(w: World, config: set<string>, provider: string): (r: Step)
    ensures r.world == w
  {
    if !IsAllowedProvider(config, provider) then
      Step(w, ProviderRejected(provider), RedirectBack)
    else if w.user.None? then
      Step(w, Unauthenticated, RedirectBack)
    else if HasSocialCredential(w.store, w.user.value, provider) then
      Step(w, AlreadyLinked(provider), RedirectIntendedHome)
    else
      Step(w, RedirectedToProvider(provider), RedirectToProvider(provider))
  }

  /**
   * `unlink`: reject a disallowed provider; otherwise delete the user's
   * credential for the provider when there is one, and dispatch `Unlinked`
   * whether or not a row was deleted.
   */
  function UnlinkSpec(w: World, config: set<string>, provider: string, hooks: Hooks): (r: Step)
    ensures r.world.nextId == w.nextId && r.world.user == w.user && r.world.calls == w.calls
    ensures |w.store| - 1 <= |r.world.store| <= |w.store|
    ensures |r.world.events| <= |w.events| + 1
  {
    if !IsAllowedProvider(config, provider) then
      Step(w, ProviderRejected(provider), RedirectBack)
    else if w.user.None? then
      Step(w, Unauthenticated, RedirectBack)
    else
      var u := w.user.value;
      var k := GetSocialCredential(w.store, u, provider);
      var store := if k.Some? then Delete(w.store, k.value) else w.store;
      Step(w.(store := store, events := w.events + [Event.Unlinked(u, provider)]),
           Outcome.Unlinked(u, provider), Hooked(hooks.unlinked, RedirectHome))
  }

  /** The attributes `make` receives when linking. */
  function LinkAttributes(provider: string, su: SocialUser): Attributes {
    map["provider_name" := Some(provider), "provider_id" := su.id]
  }

  /**
   * `linkCallback` for the authenticated `user`: the user's own credential for
   * the provider is checked first, then whether another row already holds
   * (provider, social id); otherwise a new credential owned by the user is
   * created and filled by `updateSocialCredential`.
   */
  function LinkCallbackSpec(w: World, provider: string, user: Owner, su: SocialUser, now: int, hooks: Hooks): (r: Step)
    ensures r.world.user == w.user && r.world.events == w.events && r.world.calls == w.calls
    ensures |r.world.store| == |w.store| + (if r.outcome.Linked? then 1 else 0)
  {
    if HasSocialCredential(w.store, user, provider) then
      Step(w, AlreadyLinked(provider), RedirectIntendedHome)
    else if FirstIndex(w.store, ByKey(Some(provider), su.id)).Some? then
      Step(w, LinkedToAnother(provider), RedirectIntendedHome)
    else
      var c := UpdateSocialCredential(Make(w.nextId, user, LinkAttributes(provider, su)), su, now);
      Step(w.(store := Insert(w.store, c), nextId := w.nextId + 1),
           Linked(user, c.id), Hooked(hooks.linked, RedirectHome))
  }

  /** `link` changes nothing, and reports "already linked" iff the user has a credential for the provider. */
  lemma LinkPrecheck(w: World, config: set<string>, provider: string)
    ensures LinkSpec(w, config, provider).world == w
    ensures !IsAllowedProvider(config, provider) ==> LinkSpec(w, config, provider).outcome == ProviderRejected(provider)
    ensures IsAllowedProvider(config, provider) && w.user.Some? ==>
      (LinkSpec(w, config, provider).outcome == AlreadyLinked(provider)
       <==> exists i :: 0 <= i < |w.store| && w.store[i].owner == w.user.value && w.store[i].providerName == Some(provider))
    ensures LinkSpec(w, config, provider).outcome.RedirectedToProvider? ==>
      IsAllowedProvider(config, provider) && w.user.Some? && GetSocialCredential(w.store, w.user.value, provider).None?
  {
    HasIffGet(w.store, w.user.GetOr(Owner("", 0)), provider);
  }

  /** A user who already has the provider is told so, whoever else holds the social id. */
  lemma LinkSelfTakesPrecedence(w: World, provider: string, user: Owner, su: SocialUser, now: int, hooks: Hooks)
    requires exists i :: 0 <= i < |w.store| && w.store[i].owner == user && w.store[i].providerName == Some(provider)
    ensures LinkCallbackSpec(w, provider, user, su, now, hooks) == Step(w, AlreadyLinked(provider), RedirectIntendedHome)
  {
  }

  /** A social id held by another row is rejected and nothing is created. */
  lemma LinkTakenIdRejected(w: World, provider: string, user: Owner, su: SocialUser, now: int, hooks: Hooks, j: nat)
    requires !HasSocialCredential(w.store, user, provider)
    requires j < |w.store| && w.store[j].providerName == Some(provider) && w.store[j].providerId == su.id
    ensures LinkCallbackSpec(w, provider, user, su, now, hooks) == Step(w, LinkedToAnother(provider), RedirectIntendedHome)
    ensures w.store[j].owner != user
  {
    assert Satisfies(w.store[j], ByKey(Some(provider), su.id));
  }

  /**
   * A successful link appends exactly one credential: owned by the user, keyed
   * by the provider and the social id, with profile and token columns from the
   * social user. No event is dispatched.
   */
  lemma LinkCreatesCredential(w: World, provider: string, user: Owner, su: SocialUser, now: int, hooks: Hooks)
    requires LinkCallbackSpec(w, provider, user, su, now, hooks).outcome.Linked?
    ensures var r := LinkCallbackSpec(w, provider, user, su, now, hooks);
      && !HasSocialCredential(w.store, user, provider)
      && FirstIndex(w.store, ByKey(Some(provider), su.id)).None?
      && r.outcome == Linked(user, w.nextId)
      && |r.world.store| == |w.store| + 1 && r.world.store[..|w.store|] == w.store
      && r.world.store[|w.store|].owner == user
      && r.world.store[|w.store|].providerName == Some(provider)
      && r.world.store[|w.store|].providerId == su.id
      && r.world.store[|w.store|] == UpdateSocialCredential(r.world.store[|w.store|], su, now)
      && r.world.events == w.events && r.world.user == w.user && r.world.calls == w.calls
  {
  }

  /** Linking keeps the table valid and at one row per (owner, provider). */
  lemma LinkKeepsInvariants(w: World, provider: string, user: Owner, su: SocialUser, now: int, hooks: Hooks)
    requires Valid(w) && OnePerOwnerProvider(w.store)
    ensures Valid(LinkCallbackSpec(w, provider, user, su, now, hooks).world)
    ensures OnePerOwnerProvider(LinkCallbackSpec(w, provider, user, su, now, hooks).world.store)
  {
    if !HasSocialCredential(w.store, user, provider) && FirstIndex(w.store, ByKey(Some(provider), su.id)).None? {
      var c := UpdateSocialCredential(Make(w.nextId, user, LinkAttributes(provider, su)), su, now);
      InsertKeepsUniqueKeys(w.store, c);
      InsertKeepsDistinctIds(w.store, c);
      HasIffGet(w.store, user, provider);
      InsertKeepsOnePerOwnerProvider(w.store, c);
    }
  }

  /** A disallowed provider: no deletion, no event. */
  lemma UnlinkDisallowed(w: World, config: set<string>, provider: string, hooks: Hooks)
    requires !IsAllowedProvider(config, provider)
    ensures UnlinkSpec(w, config, provider, hooks) == Step(w, ProviderRejected(provider), RedirectBack)
  {
  }

  /**
   * `unlink` for an allowed provider dispatches exactly one `Unlinked` event and
   * deletes at most the user's first credential for the provider; every other
   * row stays, in order.
   */
  lemma UnlinkDeletesOwnRow(w: World, config: set<string>, provider: string, hooks: Hooks)
    requires IsAllowedProvider(config, provider) && w.user.Some?
    ensures var r := UnlinkSpec(w, config, provider, hooks);
      && r.world.events == w.events + [Event.Unlinked(w.user.value, provider)]
      && r.world.nextId == w.nextId && r.world.user == w.user && r.world.calls == w.calls
      && (!HasSocialCredential(w.store, w.user.value, provider) ==> r.world.store == w.store)
      && (HasSocialCredential(w.store, w.user.value, provider) ==>
            exists k :: 0 <= k < |w.store| && w.store[k].owner == w.user.value && w.store[k].providerName == Some(provider)
              && k == GetSocialCredential(w.store, w.user.value, provider).value
              && (forall j :: 0 <= j < k ==> !(w.store[j].owner == w.user.value && w.store[j].providerName == Some(provider)))
              && r.world.store == w.store[..k] + w.store[k + 1..])
  {
    HasIffGet(w.store, w.user.value, provider);
  }

  /**
   * Unlinking twice dispatches two events; with one row per (owner, provider)
   * the second call deletes nothing, and afterwards the user has no credential
   * for the provider.
   */
  lemma UnlinkTwice(w: World, config: set<string>, provider: string, hooks: Hooks)
    requires IsAllowedProvider(config, provider) && w.user.Some?
    requires OnePerOwnerProvider(w.store)
    ensures var r1 := UnlinkSpec(w, config, provider, hooks);
      var r2 := UnlinkSpec(r1.world, config, provider, hooks);
      && r2.world.store == r1.world.store
      && !HasSocialCredential(r1.world.store, w.user.value, provider)
      && r2.world.events == w.events + [Event.Unlinked(w.user.value, provider), Event.Unlinked(w.user.value, provider)]
  {
    var u := w.user.value;
    var r1 := UnlinkSpec(w, config, provider, hooks);
    var k := GetSocialCredential(w.store, u, provider);
    if k.Some? {
      var s := w.store;
      var t := r1.world.store;
      assert t == Delete(s, k.value);
      forall i | 0 <= i < |t| ensures !(t[i].owner == u && t[i].providerName == Some(provider)) {
        var i' := if i < k.value then i else i + 1;
        assert t[i] == s[i'] && i' != k.value;
        assert s[k.value].owner == u && s[k.value].providerName == Some(provider);
      }
    }
    assert !HasSocialCredential(r1.world.store, u, provider);
    HasIffGet(r1.world.store, u, provider);
  }

  /** Unlinking keeps the table valid and at one row per (owner, provider). */
  lemma UnlinkKeepsInvariants(w: World, config: set<string>, provider: string, hooks: Hooks)
    requires Valid(w)
    ensures Valid(UnlinkSpec(w, config, provider, hooks).world)
    ensures OnePerOwnerProvider(w.store) ==> OnePerOwnerProvider(UnlinkSpec(w, config, provider, hooks).world.store)
  {
    if IsAllowedProvider(config, provider) && w.user.Some? {
      var k := GetSocialCredential(w.store, w.user.value, provider);
      if k.Some? {
        DeleteKeepsInvariants(w.store, k.value);
        var t := Delete(w.store, k.value);
        forall i | 0 <= i < |t| ensures t[i].id < w.nextId {
          var i' := if i < k.value then i else i + 1;
          assert t[i] == w.store[i'];
        }
      }
    }
  }
}
