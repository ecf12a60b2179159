/**
 * The queries an account gets from the HasSocialCredentials mixin, read
 * against the credential table and filtered by the account as owner.
 */
module HasSocialCredentials {
  import opened Wrappers
  import opened SocialCredential
  import opened CredentialStore

  /** `socialCredentials()`: the rows whose polymorphic owner is `owner`, in table order. */
  function SocialCredentials(s: Store, owner: Owner): (r: seq<Credential>)
    ensures |r| <= |s|
    ensures forall c :: c in r <==> c in s && c.owner == owner
  {
    if |s| == 0 then []
    else
      var rest := SocialCredentials(s[1..], owner);
      assert forall c :: c in s <==> c == s[0] || c in s[1..];
      if s[0].owner == owner then [s[0]] + rest else rest
  }

  /** `hasSocialCredential(provider)`: `->where('provider_name', provider)->exists()` on the owned rows. */
  function HasSocialCredential(s: Store, owner: Owner, provider: string): (r: bool)
    ensures r <==> exists i :: 0 <= i < |s| && s[i].owner == owner && s[i].providerName == Some(provider)
  {
    var owned := SocialCredentials(s, owner);
    var r := exists i :: 0 <= i < |owned| && owned[i].providerName == Some(provider);
    assert r ==> exists i :: 0 <= i < |s| && s[i].owner == owner && s[i].providerName == Some(provider) by {
      if r {
        var i :| 0 <= i < |owned| && owned[i].providerName == Some(provider);
        assert owned[i] in s;
        var j :| 0 <= j < |s| && s[j] == owned[i];
      }
    }
    assert (exists i :: 0 <= i < |s| && s[i].owner == owner && s[i].providerName == Some(provider)) ==> r by {
      if exists i :: 0 <= i < |s| && s[i].owner == owner && s[i].providerName == Some(provider) {
        var i :| 0 <= i < |s| && s[i].owner == owner && s[i].providerName == Some(provider);
        assert s[i] in owned;
        var j :| 0 <= j < |owned| && owned[j] == s[i];
      }
    }
    r
  }

  /**
   * `getSocialCredential(provider)`: the position of the first owned row for
   * `provider`, or None when the owner has none.
   */
  function GetSocialCredential(s: Store, owner: Owner, provider: string): (r: Option<nat>)
    ensures r.Some? ==> r.value < |s| && s[r.value].owner == owner && s[r.value].providerName == Some(provider)
    ensures r.None? <==> forall i :: 0 <= i < |s| ==> !(s[i].owner == owner && s[i].providerName == Some(provider))
  {
    FirstIndex(s, ByOwner(owner, Some(provider)))
  }

  /** The two queries agree: an owner has a credential for a provider iff one can be fetched. */
  lemma HasIffGet(s: Store, owner: Owner, provider: string)
    ensures HasSocialCredential(s, owner, provider) <==> GetSocialCredential(s, owner, provider).Some?
  {
    if GetSocialCredential(s, owner, provider).None? {
      assert !HasSocialCredential(s, owner, provider);
    }
  }

  /** A fetched credential is one of the owner's `socialCredentials()`. */
  lemma GetIsOwned(s: Store, owner: Owner, provider: string)
    requires GetSocialCredential(s, owner, provider).Some?
    ensures s[GetSocialCredential(s, owner, provider).value] in SocialCredentials(s, owner)
  {
  }
}
