/**
 * The state an incoming request can see and change, and what one request
 * decides: its outcome, its response, and the overridable hooks.
 */
module Flow {
  import opened Wrappers
  import opened SocialCredential
  import opened CredentialStore

  /** Domain events dispatched with `event(...)`. */
  datatype Event = Unlinked(user: Owner, provider: string)

  /** Calls into collaborators whose effects lie outside the credential table. */
  datatype Call =
    | FetchSocialUser(provider: string)
    | RegisterWith(provider: string)
    | FindOrCreateUser(provider: string)
    | Login(user: Owner)

  /** The HTTP response, reduced to its kind. */
  datatype Response =
    | Custom(body: string)
    | RedirectBack
    | RedirectIntendedHome
    | RedirectHome
    | RedirectToProvider(provider: string)
    | RedirectIntended(path: string)
    | AbortBadRequest
    | Thrown                      // an exception escapes to the framework's handler

  /** What a request decided. */
  datatype Outcome =
    | ProviderRejected(provider: string)
    | Unauthenticated
    | AlreadyLinked(provider: string)
    | LinkedToAnother(provider: string)
    | Linked(user: Owner, credential: nat)
    | LoggedIn(user: Owner, credential: nat)
    | DuplicateEmail(provider: string)
    | Registered(user: Owner, credential: nat)
    | RedirectedToProvider(provider: string)
    | Unlinked(user: Owner, provider: string)
    | SaveFailed
    | FetchFailed(provider: string)

  /**
   * Everything a request can observe or change: the credential table, the next
   * primary key, the authenticated user (`request->user()`, the guard's user),
   * the dispatched events and the calls made to collaborators.
   */
  datatype World = World(
    store: Store,
    nextId: nat,
    user: Option<Owner>,
    events: seq<Event>,
    calls: seq<Call>)

  /** Primary keys are distinct and below the next one; lookup keys are unique. */
  ghost predicate Valid(w: World) {
    && (forall i :: 0 <= i < |w.store| ==> w.store[i].id < w.nextId)
    && DistinctIds(w.store)
    && UniqueKeys(w.store)
  }

  /** One request: the new world, what was decided, and the response. */
  datatype Step = Step(world: World, outcome: Outcome, response: Response)

  /** The overridable hooks; None is the default body that returns null. */
  datatype Hooks = Hooks(
    registered: Option<Response>,
    authenticated: Option<Response>,
    linked: Option<Response>,
    unlinked: Option<Response>)

  /** `hook(...) ?? fallback`. */
  function Hooked(hook: Option<Response>, fallback: Response): (r: Response)
    ensures hook.None? ==> r == fallback
    ensures hook.Some? ==> r == hook.value
  {
    hook.GetOr(fallback)
  }
}
