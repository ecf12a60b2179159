/**
 * The credential table as a sequence of rows in their storage order, with the
 * two query shapes the package uses and the invariants the decision logic keeps.
 */
module CredentialStore {
  import opened Wrappers
  import opened SocialCredential

  type Store = seq<Credential>

  /** The two `where ... where ...` queries issued against the table. */
  datatype Query =
    | ByKey(providerName: Option<string>, providerId: Option<string>)
    | ByOwner(owner: Owner, providerName: Option<string>)

  predicate Satisfies(c: Credential, q: Query) {
    match q
    case ByKey(p, pid) => c.providerName == p && c.providerId == pid
    case ByOwner(o, p) => c.owner == o && c.providerName == p
  }

  /** `->first()`: the position of the first row satisfying `q`, or None. */
  function FirstIndex(s: Store, q: Query): (r: Option<nat>)
    ensures r.Some? ==> r.value < |s| && Satisfies(s[r.value], q)
    ensures r.Some? ==> forall j :: 0 <= j < r.value ==> !Satisfies(s[j], q)
    ensures r.None? <==> forall j :: 0 <= j < |s| ==> !Satisfies(s[j], q)
  {
    if |s| == 0 then None
    else if Satisfies(s[0], q) then Some(0)
    else
      match FirstIndex(s[1..], q)
      case None => None
      case Some(i) => Some(i + 1)
  }

  /** Primary keys are distinct. */
  ghost predicate DistinctIds(s: Store) {
    forall i, j :: 0 <= i < j < |s| ==> s[i].id != s[j].id
  }

  /** At most one row per lookup key (provider_name, provider_id). */
  ghost predicate UniqueKeys(s: Store) {
    forall i, j :: 0 <= i < j < |s| ==>
      !(s[i].providerName == s[j].providerName && s[i].providerId == s[j].providerId)
  }

  /** At most one row per (owner, provider_name). */
  ghost predicate OnePerOwnerProvider(s: Store) {
    forall i, j :: 0 <= i < j < |s| ==>
      !(s[i].owner == s[j].owner && s[i].providerName == s[j].providerName)
  }

  /** `saveOrFail()` / `save()` of a new row: it is appended. */
  function Insert(s: Store, c: Credential): (r: Store)
    ensures |r| == |s| + 1 && r[..|s|] == s && r[|s|] == c
  {
    s + [c]
  }

  /** `delete()` of the row at position `i`; every other row keeps its relative order. */
  function Delete(s: Store, i: nat): (r: Store)
    requires i < |s|
    ensures |r| == |s| - 1
    ensures forall j :: 0 <= j < i ==> r[j] == s[j]
    ensures forall j :: i <= j < |r| ==> r[j] == s[j + 1]
  {
    s[..i] + s[i + 1..]
  }

  /** Inserting a row whose key is not yet present keeps keys unique. */
  lemma InsertKeepsUniqueKeys(s: Store, c: Credential)
    requires UniqueKeys(s)
    requires FirstIndex(s, ByKey(c.providerName, c.providerId)).None?
    ensures UniqueKeys(Insert(s, c))
  {
    var r := Insert(s, c);
    forall i, j | 0 <= i < j < |r|
      ensures !(r[i].providerName == r[j].providerName && r[i].providerId == r[j].providerId)
    {
      if j == |s| {
        assert !Satisfies(s[i], ByKey(c.providerName, c.providerId));
      }
    }
  }

  /** Inserting a row for an (owner, provider) pair not yet present keeps that pair unique. */
  lemma InsertKeepsOnePerOwnerProvider(s: Store, c: Credential)
    requires OnePerOwnerProvider(s)
    requires FirstIndex(s, ByOwner(c.owner, c.providerName)).None?
    ensures OnePerOwnerProvider(Insert(s, c))
  {
    var r := Insert(s, c);
    forall i, j | 0 <= i < j < |r|
      ensures !(r[i].owner == r[j].owner && r[i].providerName == r[j].providerName)
    {
      if j == |s| {
        assert !Satisfies(s[i], ByOwner(c.owner, c.providerName));
      }
    }
  }

  /** Inserting a row with a fresh primary key keeps primary keys distinct. */
  lemma InsertKeepsDistinctIds(s: Store, c: Credential)
    requires DistinctIds(s)
    requires forall j :: 0 <= j < |s| ==> s[j].id < c.id
    ensures DistinctIds(Insert(s, c))
  {
  }

  /** Rewriting row `i` without touching its primary key, owner or lookup key keeps all three invariants. */
  lemma ReplaceKeepsInvariants(s: Store, i: nat, c: Credential)
    requires i < |s|
    requires c.id == s[i].id && c.owner == s[i].owner
    requires c.providerName == s[i].providerName && c.providerId == s[i].providerId
    ensures DistinctIds(s) ==> DistinctIds(s[i := c])
    ensures UniqueKeys(s) ==> UniqueKeys(s[i := c])
    ensures OnePerOwnerProvider(s) ==> OnePerOwnerProvider(s[i := c])
  {
  }

  /** Deleting a row keeps all three invariants. */
  lemma DeleteKeepsInvariants(s: Store, i: nat)
    requires i < |s|
    ensures DistinctIds(s) ==> DistinctIds(Delete(s, i))
    ensures UniqueKeys(s) ==> UniqueKeys(Delete(s, i))
    ensures OnePerOwnerProvider(s) ==> OnePerOwnerProvider(Delete(s, i))
  {
    var r := Delete(s, i);
    forall a, b | 0 <= a < b < |r|
      ensures exists a', b' :: 0 <= a' < b' < |s| && r[a] == s[a'] && r[b] == s[b']
    {
      var a' := if a < i then a else a + 1;
      var b' := if b < i then b else b + 1;
      assert r[a] == s[a'] && r[b] == s[b'];
    }
  }

  /** With unique keys, the first row matching a key is the only one. */
  lemma UniqueKeyMatch(s: Store, q: Query, j: nat)
    requires UniqueKeys(s) && q.ByKey?
    requires j < |s| && Satisfies(s[j], q)
    ensures FirstIndex(s, q) == Some(j)
  {
  }

  /** With one row per (owner, provider), the first row matching an owner query is the only one. */
  lemma UniqueOwnerMatch(s: Store, q: Query, j: nat)
    requires OnePerOwnerProvider(s) && q.ByOwner?
    requires j < |s| && Satisfies(s[j], q)
    ensures FirstIndex(s, q) == Some(j)
  {
  }
}
