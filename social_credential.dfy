/**
 * The social credential record: one row of the credential table, with its
 * mass-assignment rule and its polymorphic owner.
 */
module SocialCredential {
  import opened Wrappers

  /** The polymorphic owner `morphTo('model')`: the pair (model_type, model_id). */
  datatype Owner = Owner(modelType: string, modelId: nat)

  /**
   * One credential row. `id` is the primary key, distinct from the lookup key
   * (providerName, providerId). `raw` is cast to an array and `expiresAt` to a
   * datetime, here a timestamp in seconds.
   */
  datatype Credential = Credential(
    id: nat,
    owner: Owner,
    providerName: Option<string>,
    providerId: Option<string>,
    name: Option<string>,
    nickname: Option<string>,
    email: Option<string>,
    avatar: Option<string>,
    accessToken: Option<string>,
    refreshToken: Option<string>,
    expiresAt: Option<int>,
    raw: map<string, string>)

  /** The attributes the model accepts by mass assignment. */
  const Fillable: set<string> := {
    "provider_id", "provider_name", "name", "nickname", "email",
    "avatar", "access_token", "refresh_token", "expires_at", "raw"
  }

  /** An attribute array as passed to `make`, `fill` or `firstOrNew`. */
  type Attributes = map<string, Option<string>>

  /** Mass assignment keeps the fillable keys and silently drops every other key. */
  function MassAssign(attrs: Attributes): (r: Attributes)
    ensures r.Keys == attrs.Keys * Fillable
    ensures forall k :: k in r ==> r[k] == attrs[k]
  {
    map k | k in attrs && k in Fillable :: attrs[k]
  }

  /** The attribute `key` after mass assignment, null when it was dropped or never given. */
  function Assigned(attrs: Attributes, key: string): Option<string> {
    var kept := MassAssign(attrs);
    if key in kept then kept[key] else None
  }

  /**
   * `owner->socialCredentials()->make(attrs)`: a new row owned by `owner`
   * whose string columns come from the mass-assigned attributes; the columns
   * not given are null and `raw` is empty.
   */
  function Make(id: nat, owner: Owner, attrs: Attributes): (c: Credential)
    ensures c.id == id && c.owner == owner
    ensures c.providerName == (if "provider_name" in attrs then attrs["provider_name"] else None)
    ensures c.providerId == (if "provider_id" in attrs then attrs["provider_id"] else None)
    ensures c.expiresAt == None && c.raw == map[]
  {
    Credential(id, owner,
      Assigned(attrs, "provider_name"), Assigned(attrs, "provider_id"),
      Assigned(attrs, "name"), Assigned(attrs, "nickname"), Assigned(attrs, "email"),
      Assigned(attrs, "avatar"), Assigned(attrs, "access_token"), Assigned(attrs, "refresh_token"),
      None, map[])
  }

  /** A key outside the fillable list has no effect on the new row. */
  lemma MakeIgnoresNonFillable(id: nat, owner: Owner, attrs: Attributes, key: string)
    requires key !in Fillable
    ensures Make(id, owner, attrs) == Make(id, owner, attrs - {key})
  {
    assert MassAssign(attrs) == MassAssign(attrs - {key});
  }
}
