# Social credentials: a verified model

This project models the decision logic of a Laravel package that ties OAuth
("social") identities to local accounts. A local account owns *social
credentials*. Each credential is one row of a table, keyed by
`(provider_name, provider_id)` and owned polymorphically by a `(model_type,
model_id)` pair. The model covers:

- the login callback of the `HandleSocialAuthenticate` mixin: the allow-list, the link branch, a known identity refreshed and logged in, a duplicate e-mail rejected, or a new account registered;
- the `HandleSocialLink` mixin: the link pre-check, the link callback and unlinking with its `Unlinked` event;
- the older `AuthWithSocialite` mixin: find-or-new on the lookup key, fill, associate an owner, save, log in;
- the owner queries of `HasSocialCredentials`;
- the credential record with its mass-assignment rule;
- the small pure parts of the LINE and Instagram provider adapters.

The table is a `seq<Credential>` kept in row order, so `first()` is the first
matching row. One request is a `Step`: the new `World`, an `Outcome` tag and a
`Response` tag. The `World` holds:

- the table;
- the next primary key;
- the authenticated user;
- the event log;
- the calls made to collaborators outside the table (`registerWith`, `findOrCreateUser`, the guard's `login`, the fetch of the social user).

The controllers that change state step by step are classes: `SocialController.SocialController` and `AuthWithSocialite.SocialiteLogin`. Each method is proved equal to a pure specification function of the old state. The lemmas state the properties of those functions, among them:

- the table invariants: distinct primary keys, unique lookup keys, at most one row per (owner, provider);
- what each branch writes, and that nothing else changes.

Collaborators are inputs, so every choice they make is covered:

- the clock (`now`);
- the configuration keys;
- the overridable hooks;
- the answers of `emailAlreadyRegistered`, `registerWith`, `findOrCreateUser` and `saveOrFail`;
- whether fetching the social user throws (`fetchFails`), and otherwise the social user the provider returns;
- HMAC, base64 and JSON decoding, as function parameters.

Files, one module each: `wrappers.dfy`, `social_credential.dfy`,
`credential_store.dfy`, `has_social_credentials.dfy`, `socialite.dfy` (the
social user), `flow.dfy` (the request state: `World`, `Step`, `Outcome`,
`Response`, hooks), `handle_social_authenticate.dfy`,
`handle_social_link.dfy`, `social_controller.dfy`, `auth_with_socialite.dfy`,
`strings.dfy` (code-point string order, `implode`, `explode`), `instagram_provider.dfy` and
`line_provider.dfy`.

Five places need a word on how the model relates to the code.

- **Two corrected defects.** The package writes the registration row under the non-fillable key `provider` (src/HandleSocialAuthenticate.php:88) and fills the avatar column from `getName()` (src/HandleSocialAuthenticate.php:225). Both are listed under "## Findings". The as-written versions, `RegistrationAttributesAsWritten` and `UpdateSocialCredentialAsWritten`, are modelled beside the corrected ones, each with a lemma showing the defect. The engine uses the corrected `RegistrationAttributes` and `UpdateSocialCredential`. The engine is `LoginSpec`, `LinkCallbackSpec`, `CallbackSpec` and the `SocialController` methods, and every lemma about them assumes the corrected versions. `RegistrationAsWrittenDuplicatesKey` shows that with the key as written, two registrations of one identity break unique lookup keys.
- **Registration does not log in.** `callback` calls `authenticateWith` only for a known identity. Registration returns the `registered` response without logging the new account in. This follows the code, and `LoginSpec` models it.
- **Link call-site arity.** The link branch calls `linkCallback($request, $provider, $socialUser)` (src/HandleSocialAuthenticate.php:56). The declaration takes `(request, provider, user, socialUser)` (src/HandeSocialLink.php:127). The model follows the intended signature, passing `user = request->user()`, not the call as written.
- **`getSocialById`.** It is called at src/HandeSocialLink.php:136 but defined in no file of the package. It is modelled as the `(provider_name, provider_id)` lookup of `findUserBySocialiteUser`.
- **`update()` on an unsaved model.** The registration and link paths call `update()` on a model made with `make(...)`, which has not been saved yet. Whether such an `update()` persists the row is decided by the framework, outside these files. The model treats it as a write that saves the new row.

## Model

| member | source | states |
|---|---|---|
| SocialCredential.MassAssign | src/Models/SocialCredential.php:36-47 | mass assignment keeps exactly the given keys that are among the ten fillable ones, with their values |
| SocialCredential.Make | src/Models/SocialCredential.php:36-67 | a row made on an owner's relation has that owner and the given id; its provider name and id are the given attributes when present and null otherwise; expiry null, raw empty |
| SocialCredential.MakeIgnoresNonFillable | src/Models/SocialCredential.php:36-47 | a key outside the fillable list, such as `provider`, has no effect on the row made |
| CredentialStore.FirstIndex | src/HandleSocialAuthenticate.php:199-203 | `first()` gives a matching row with no match before it, and gives null exactly when no row matches |
| CredentialStore.Insert | src/AuthWithSocialite.php:115 | saving a new row appends it and keeps every existing row in place |
| CredentialStore.Delete | src/HandeSocialLink.php:110 | deleting a row removes exactly that row and keeps the others in order |
| CredentialStore.InsertKeepsUniqueKeys | src/AuthWithSocialite.php:92-115 | appending a row whose lookup key is absent keeps lookup keys unique |
| CredentialStore.InsertKeepsOnePerOwnerProvider | src/HandeSocialLink.php:130-150 | appending a row for an (owner, provider) pair the owner does not have keeps one row per pair |
| CredentialStore.InsertKeepsDistinctIds | src/Models/SocialCredential.php:29 | appending a row with a fresh primary key keeps primary keys distinct |
| CredentialStore.ReplaceKeepsInvariants | src/HandleSocialAuthenticate.php:221-230 | rewriting a row's profile and token columns keeps all three table invariants |
| CredentialStore.DeleteKeepsInvariants | src/HandeSocialLink.php:109-111 | deleting a row keeps all three table invariants |
| CredentialStore.UniqueKeyMatch | src/HandleSocialAuthenticate.php:199-205 | with unique lookup keys, any row matching the key is the one `first()` returns |
| CredentialStore.UniqueOwnerMatch | src/HasSocialCredentials.php:58-63 | with one row per (owner, provider), any row matching an owner query is the one `first()` returns |
| HasSocialCredentials.SocialCredentials | src/HasSocialCredentials.php:34-37 | a row is among an entity's credentials iff it is in the table and its polymorphic owner is that entity |
| HasSocialCredentials.HasSocialCredential | src/HasSocialCredentials.php:45-50 | true iff some row owned by the entity has provider_name equal to the provider |
| HasSocialCredentials.GetSocialCredential | src/HasSocialCredentials.php:58-63 | returns a row owned by the entity for the provider, and null exactly when there is none |
| HasSocialCredentials.HasIffGet | src/HasSocialCredentials.php:45-63 | `hasSocialCredential(p)` holds iff `getSocialCredential(p)` is not null |
| HasSocialCredentials.GetIsOwned | src/HasSocialCredentials.php:58-63 | the fetched row is one of the entity's `socialCredentials()` |
| Flow.Hooked | src/HandleSocialAuthenticate.php:331-335 | a hook returning null falls back to the default response; a non-null hook result is the response |
| HandleSocialAuthenticate.IsAllowedProvider | src/HandleSocialAuthenticate.php:105-108 | the configuration lookup `services.{provider}`; it has no contract of its own, and `CallbackDisallowedTouchesNothing`, `LinkPrecheck` and `UnlinkDisallowed` state what a provider outside the configuration gets |
| HandleSocialAuthenticate.FindUserBySocialiteUser | src/HandleSocialAuthenticate.php:194-206 | an owner is found iff some row matches both provider_name and provider_id; it is the owner of a matching row, and with unique keys the owner of every matching row |
| HandleSocialAuthenticate.UpdateSocialCredential | src/HandleSocialAuthenticate.php:216-233 | the corrected column mapping, with the avatar from `getAvatar()`; it has no contract of its own, and `UpdateSocialCredentialFields` and `UpdateSocialCredentialIdempotent` state its effect |
| HandleSocialAuthenticate.UpdateSocialCredentialAsWritten | src/HandleSocialAuthenticate.php:216-233 | the mapping as written, with the avatar from `getName()`; it has no contract of its own, and `AvatarAsWrittenIsName` states how it differs from the corrected one |
| HandleSocialAuthenticate.UpdateSocialCredentialFields | src/HandleSocialAuthenticate.php:216-233 | for the corrected mapping (avatar from `getAvatar()`), the update writes name, nickname, e-mail, avatar, access token and raw from the social user; expiry is `now + expiresIn` when set, else null; refresh token is `refreshToken ?? tokenSecret`; id, owner and lookup key are untouched |
| HandleSocialAuthenticate.UpdateSocialCredentialIdempotent | src/HandleSocialAuthenticate.php:221-230 | applying the same social user twice gives the row a single application gives; two applications at different times differ only in the expiry |
| HandleSocialAuthenticate.AvatarAsWrittenIsName | src/HandleSocialAuthenticate.php:225 | as written, the avatar column receives the display name, which differs from the avatar for a concrete user |
| HandleSocialAuthenticate.RegistrationAsWrittenIsNotFound | src/HandleSocialAuthenticate.php:86-90 | as written, the registered row has a null provider_name and the same social user is still not found after registration |
| HandleSocialAuthenticate.RegistrationAsWrittenDuplicatesKey | src/HandleSocialAuthenticate.php:84-95 | as written, a second callback for the same identity still finds no owner, and its registration leaves two rows with the lookup key (null, social id), so lookup keys are no longer unique |
| HandleSocialAuthenticate.RedirectAfterAuthenticated | src/HandleSocialAuthenticate.php:326-336 | the `authenticated` hook, else the intended page or home; it has no contract of its own, and `DefaultHooksRedirectHome` and `Flow.Hooked` state the fallback |
| HandleSocialAuthenticate.RedirectAfterRegistered | src/HandleSocialAuthenticate.php:305-317 | the `registered` hook, else the answer after authentication; it has no contract of its own, and `DefaultHooksRedirectHome` states the fallback |
| HandleSocialAuthenticate.DefaultHooksRedirectHome | src/HandleSocialAuthenticate.php:305-336 | with a null `authenticated` hook the response is the intended page or home; with a null `registered` hook registration answers as authentication does |
| HandleSocialAuthenticate.FoundOwnerHasCredential | src/HandleSocialAuthenticate.php:61-63 | the owner found by key has a credential for the provider, so `getSocialCredential` is not null; with one row per (owner, provider) it returns the row matched by key |
| HandleSocialAuthenticate.LoginSpec | src/HandleSocialAuthenticate.php:59-95 | the login part ends in a login, a duplicate e-mail or a registration; it dispatches no event; it uses a new primary key exactly when it registers; the authenticated user changes only on a login |
| HandleSocialAuthenticate.LoginExistingLogsInOwner | src/HandleSocialAuthenticate.php:61-75 | a known identity logs in its owner through the guard; only the row that owner's `getSocialCredential` returns for the provider is rewritten, no row is added and nobody is registered |
| HandleSocialAuthenticate.LoginRefreshesMatchedRow | src/HandleSocialAuthenticate.php:61-66 | with the invariants, the rewritten row is exactly the row matched by key |
| HandleSocialAuthenticate.DuplicateEmailOnlyFromHook | src/HandleSocialAuthenticate.php:80-82 | a duplicate-e-mail rejection happens only when `emailAlreadyRegistered` answers true and the identity is unknown, and it changes nothing; with the default `false` it never happens |
| HandleSocialAuthenticate.RegistrationAttachesCredential | src/HandleSocialAuthenticate.php:84-95 | registration calls `registerWith` once and appends one row owned by the new account with the provider and the social id; the next lookup finds the new account; nobody is logged in |
| HandleSocialAuthenticate.LoginKeepsValid | src/HandleSocialAuthenticate.php:61-95 | every login outcome keeps primary keys distinct and lookup keys unique; this holds with the corrected registration key, not the one as written |
| HandleSocialAuthenticate.LoginKeepsOnePerOwnerProvider | src/HandleSocialAuthenticate.php:84-93 | when `registerWith` returns an account with no credentials, every login outcome keeps one row per (owner, provider) |
| HandleSocialAuthenticate.RefreshKeepsLookups | src/HandleSocialAuthenticate.php:61-66 | rewriting a row while keeping its owner and lookup key changes neither the owner found by key nor the owner's `getSocialCredential` |
| HandleSocialAuthenticate.LoginTwiceSameFields | src/HandleSocialAuthenticate.php:61-75 | a second login with the same social user logs in again and leaves every row as the first did, apart from the expiry |
| HandleSocialLink.LinkSpec | src/HandeSocialLink.php:79-92 | the link pre-check leaves the whole state unchanged |
| HandleSocialLink.UnlinkSpec | src/HandeSocialLink.php:101-116 | `unlink` keeps the next primary key, the authenticated user and the collaborator calls; it removes at most one row and dispatches at most one event |
| HandleSocialLink.LinkCallbackSpec | src/HandeSocialLink.php:127-157 | the link callback keeps the authenticated user, the events and the calls; the table grows by exactly one row on a successful link and is otherwise the same size |
| HandleSocialLink.LinkPrecheck | src/HandeSocialLink.php:79-92 | `link` changes nothing; a disallowed provider is rejected; "already linked" is answered iff the user owns a row for the provider; otherwise it redirects to the provider |
| HandleSocialLink.LinkSelfTakesPrecedence | src/HandeSocialLink.php:130-132 | a user who already has the provider is told so and nothing changes, whoever else holds the social id |
| HandleSocialLink.LinkTakenIdRejected | src/HandeSocialLink.php:136-138 | a social id held by another row is rejected and no row is created; that row belongs to someone else |
| HandleSocialLink.LinkCreatesCredential | src/HandeSocialLink.php:140-150 | a successful link appends exactly one row owned by the user, with the provider, the social id and the columns of `updateSocialCredential`; no event, no login |
| HandleSocialLink.LinkKeepsInvariants | src/HandeSocialLink.php:127-157 | the link callback keeps all three table invariants |
| HandleSocialLink.UnlinkDisallowed | src/HandeSocialLink.php:103-105 | a disallowed provider is rejected with no deletion and no event |
| HandleSocialLink.UnlinkDeletesOwnRow | src/HandeSocialLink.php:107-113 | `unlink` deletes the row `getSocialCredential` returns, the user's first row for the provider, when there is one, and no row otherwise, keeping all other rows in order; it always dispatches one `Unlinked(user, provider)` |
| HandleSocialLink.UnlinkTwice | src/HandeSocialLink.php:108-113 | with one row per (owner, provider), after one unlink the user has no row for the provider, and a second unlink deletes nothing and still dispatches a second event |
| HandleSocialLink.UnlinkKeepsInvariants | src/HandeSocialLink.php:108-111 | unlinking keeps all three table invariants |
| SocialController.CallbackSpec | src/HandleSocialAuthenticate.php:46-96 | the callback dispatches no event, and the authenticated user changes only on a login |
| SocialController.CallbackDisallowedTouchesNothing | src/HandleSocialAuthenticate.php:48-50 | a disallowed provider is rejected before the social user is fetched or the table is read |
| SocialController.CallbackFetchFailure | src/HandleSocialAuthenticate.php:52 | for an allowed provider, a fetch of the social user that throws is recorded and the exception escapes; the table, the user and the events are unchanged |
| SocialController.LinkBranchIffLinkCallbackRequest | src/HandleSocialAuthenticate.php:177-184 | after a successful fetch, the outcome is a link outcome exactly when `linkCallback` exists and the request has a user |
| SocialController.CallbackLinkBranchFirst | src/HandleSocialAuthenticate.php:52-57 | an authenticated request takes the link branch: the social user is fetched, nobody is logged in or registered, and the outcome is one of the link outcomes |
| SocialController.CallbackLoginBranch | src/HandleSocialAuthenticate.php:59-95 | without a user or without `linkCallback`, the outcome is a login, a duplicate e-mail or a registration |
| SocialController.CallbackKeepsValid | src/HandleSocialAuthenticate.php:46-96 | every callback keeps primary keys distinct and lookup keys unique; this holds with the corrected registration key, not the one as written |
| SocialController.SocialController.Callback | src/HandleSocialAuthenticate.php:46-96 | the step-by-step callback ends in the state and answer of its specification, a failed fetch included, and keeps the table valid |
| SocialController.SocialController.LoginPart | src/HandleSocialAuthenticate.php:59-95 | the step-by-step login part ends in the state and answer of `LoginSpec` |
| SocialController.SocialController.Link | src/HandeSocialLink.php:79-92 | the link pre-check returns its specification's answer; "already linked" means the user's credential for the provider exists |
| SocialController.SocialController.Unlink | src/HandeSocialLink.php:101-116 | the step-by-step unlink ends in the state and answer of its specification, and keeps the table valid |
| SocialController.SocialController.LinkCallback | src/HandeSocialLink.php:127-157 | the step-by-step link callback ends in the state and answer of its specification |
| AuthWithSocialite.AllowedProvider | src/AuthWithSocialite.php:138-141 | the configuration lookup `services.{provider}`; it has no contract of its own, and `EntryPointsRejectDisallowed` states what a provider outside the configuration gets |
| AuthWithSocialite.Fill | src/AuthWithSocialite.php:98-108 | the `fill` of this variant; it has no contract of its own, and `FillTokenColumns` states the columns it writes |
| AuthWithSocialite.RedirectToProviderSpec | src/AuthWithSocialite.php:41-46 | the redirect endpoint leaves the whole state unchanged |
| AuthWithSocialite.CreateCredentialsSpec | src/AuthWithSocialite.php:90-118 | find-or-new keeps the events and the authenticated user; a failed save leaves the table and the next primary key unchanged |
| AuthWithSocialite.HandleProviderCallbackSpec | src/AuthWithSocialite.php:55-68 | the callback dispatches no event, and the authenticated user changes only on a login |
| AuthWithSocialite.EntryPointsRejectDisallowed | src/AuthWithSocialite.php:43-57 | both entry points abort with 400 exactly for a provider outside the configuration, and then change nothing; an allowed provider whose fetch and save succeed logs in |
| AuthWithSocialite.CreateCredentialsSavesKey | src/AuthWithSocialite.php:92-115 | the saved position holds a row with the social user's lookup key |
| AuthWithSocialite.CreateCredentialsReusesRow | src/AuthWithSocialite.php:92-108 | an existing row is reused in place with its owner and primary key, refilled, and `findOrCreateUser` is not called |
| AuthWithSocialite.CreateCredentialsNewOwner | src/AuthWithSocialite.php:110-113 | a new key calls `findOrCreateUser` once, and the returned user owns the appended row |
| AuthWithSocialite.CreateCredentialsExactlyOne | src/AuthWithSocialite.php:92-117 | after a save exactly one row holds the lookup key, the saved one, and the table stays valid |
| AuthWithSocialite.FillTokenColumns | src/AuthWithSocialite.php:98-108 | in this variant the expiry is always set, to `now + expiresIn` when given; the refresh token has no token-secret fallback; raw is not written |
| AuthWithSocialite.HandleProviderCallbackLogsInOwner | src/AuthWithSocialite.php:55-80 | a disallowed provider aborts with 400 and changes nothing; a fetch or save that throws lets the exception escape, with the table and the user unchanged and no login; otherwise the logged-in user is the owner of a row holding the social user's lookup key |
| AuthWithSocialite.SocialiteLogin.RedirectToProvider | src/AuthWithSocialite.php:41-46 | the redirect endpoint returns its specification's answer without changing anything |
| AuthWithSocialite.SocialiteLogin.CreateCredentials | src/AuthWithSocialite.php:90-118 | the step-by-step find-or-new ends in the state and saved position of its specification, and keeps the table valid |
| AuthWithSocialite.SocialiteLogin.HandleProviderCallback | src/AuthWithSocialite.php:55-68 | the step-by-step callback ends in the state and answer of its specification, a thrown fetch or save included, and keeps the table valid |
| InstagramProvider.KSort | src/Providers/InstagramProvider.php:121 | `ksort` gives the same parameters in ascending key order |
| InstagramProvider.SignatureBase | src/Providers/InstagramProvider.php:118-124 | the signed string starts with the endpoint |
| InstagramProvider.SignatureBaseOrderIndependent | src/Providers/InstagramProvider.php:121-124 | the signed string does not depend on the order the parameters are given in |
| InstagramProvider.GenerateSignature | src/Providers/InstagramProvider.php:118-128 | the loop builds the endpoint followed by, per parameter in key order, a pipe, the key, `=` and the value; the result is its HMAC under the client secret |
| InstagramProvider.SingleParamBase | src/Providers/InstagramProvider.php:61-65 | the signed string of the single-parameter query is `/users/self`, a pipe, then `access_token=` and the token |
| InstagramProvider.UserByTokenQuery | src/Providers/InstagramProvider.php:59-66 | the query holds the access token and exactly one more key, `sig`, computed over the query without `sig` |
| InstagramProvider.MapUserToObject | src/Providers/InstagramProvider.php:87-96 | id, nickname, name and avatar come from `id`, `username`, `full_name`, `profile_picture`; the e-mail is always null; a missing key is an error |
| InstagramProvider.ParseTokenResponse | src/Providers/InstagramProvider.php:136-161 | the access token, refresh token and lifetime are read from `access_token`, `refresh_token` and `expires_in`, each null exactly when its key is absent |
| InstagramProvider.DefaultScopes | src/Providers/InstagramProvider.php:23-30 | the default scope string is `basic` |
| LineProvider.DefaultScopes | src/Providers/LineProvider.php:24-35 | the default scopes joined by a space are `openid profile email` |
| LineProvider.MapUserToObject | src/Providers/LineProvider.php:111-120 | the id is `userId`, else `sub`, else null; the name is `displayName`, else `name`; the avatar is `pictureUrl`, else `picture`; the e-mail is `email` or null; the nickname is always null |
| LineProvider.Translate | src/Providers/LineProvider.php:53 | `strtr(s, '-_', '+/')` keeps the length and maps each character on its own |
| LineProvider.TranslateIsBase64 | src/Providers/LineProvider.php:53 | the result has no `-` or `_`, and every other character is unchanged |
| LineProvider.TranslateRoundTrip | src/Providers/LineProvider.php:53 | on a base64url string the translation is undone by the reverse translation, so no information is lost |
| Strings.ImplodeExplode | src/Providers/LineProvider.php:52 | splitting the id_token on `.` loses nothing: gluing the pieces back with `.` gives the token |
| Strings.ExplodePiecesFree | src/Providers/LineProvider.php:52 | no piece of the split id_token contains a `.` |
| LineProvider.User | src/Providers/LineProvider.php:43-62 | `user()` fails with the invalid-state error exactly when the state does not match; any other failure needs a truthy id_token |
| LineProvider.UserFromIdToken | src/Providers/LineProvider.php:51-53 | with an id_token `header.body.signature`, the profile is the decoded, translated body segment, and the tokens and expiry come from the token response |
| LineProvider.UserFromProfileEndpoint | src/Providers/LineProvider.php:54-58 | without a truthy id_token, the profile comes from the profile endpoint called with the access token |
| LineProvider.UserTokensFromResponse | src/Providers/LineProvider.php:45-62 | a mismatched state fails; any success carries `access_token`, `refresh_token` and `expires_in` of the token response, read by `parseAccessToken`, `parseRefreshToken` and `parseExpiresIn` |
| LineProvider.ShortIdTokenFails | src/Providers/LineProvider.php:52 | an id_token `header.body` with only two segments, for any dot-free header and body including empty ones, is an error |

## Left out

- HTTP responses, `session()->flash` messages, `ucfirst`, `route('home')` and `redirect()->intended` are left out. They become `Response` tags.
- Eager loading (`with('owner')`, `load('socialCredentials')`) has no effect here. Resolving the `owner` morph relation is assumed to succeed.
- Building the Socialite driver and calling `setScopes` through `method_exists` is framework reflection. The social user it yields is an input.
- The HTTP calls of the adapters are left out: `getUserByToken`, the token request, `getTokenFields`, the `['data']` unwrapping and the auth and token URLs. Their results are inputs.
- `hash_hmac`, `base64_decode` and `json_decode` are foreign library calls. They are function parameters.
- Concurrent callbacks are left out. Each request is one atomic step, so races on the lookup key are outside the model.
- `ServiceProvider` (migration publishing), the `Authenticatable` contract (signatures only) and the `Linked` event are not part of this model. The `Linked` event is never constructed in the package.
- The PHP `SocialController` class only composes the two mixins. Its methods come from `HandleSocialAuthenticate` and `HandleSocialLink`, and class `SocialController.SocialController` models them.
- A failure of `update()` inside `updateSocialCredential` is not modelled, on both the login and the link paths. The write always succeeds.
- A fetch of the social user that throws is one outcome, `FetchFailed`, whatever the exception. LINE's `InvalidStateException` is the `InvalidState` error of `LineProvider.User`, which is not connected to the controllers, because the controllers receive the fetch result as an input.
- The PHP-level error for a request without a user in `link` and `unlink` is not modelled. These endpoints sit behind authentication, and the model answers `Unauthenticated` without changing anything.
- LineProvider.User: an id_token with fewer than three segments is modelled as the error `MalformedIdToken`. In PHP, `list()` would give null segments with a notice. A body that does not decode to an array is `UndecodableProfile`, where PHP would raise a type error.
- LineProvider.User: the `expires_in` value is converted by a `seconds` parameter, because the adapter stores what the response holds.
- InstagramProvider.KSort: keys are ordered by code points. PHP's `ksort` compares numeric-looking keys as numbers, and keys of mixed numeric or string kind are not modelled.
- AuthWithSocialite.Fill: for an absent lifetime, the model assumes `now()->addSeconds(null)` adds zero seconds. What it really does depends on the date library's version, outside these files: one version casts null to 0, and another treats a null amount as 1.
- AuthWithSocialite.HandleProviderCallbackSpec: the `?:` on the `authenticated` hook is modelled as a present or absent response. A falsy non-null return such as an empty string is not distinguished.
- SocialCredential.Credential: `expires_at` is a timestamp in seconds, not a date object. `raw` is a string-to-string map, so nested arrays are not modelled.
- HandleSocialAuthenticate.LoginKeepsOnePerOwnerProvider: this lemma assumes that the account `registerWith` returns owns no credential yet. The package cannot promise that, so `Flow.Valid` requires only distinct primary keys and unique lookup keys.

## Findings

| source | as written | input that shows it | evidently intended | confidence | as-written member | corrected member |
|---|---|---|---|---|---|---|
| src/HandleSocialAuthenticate.php:88 | the registration `make` passes the key `provider`, which is not fillable, so the new row gets a null provider_name | a first login with provider `github` and social id `42`: the row is saved with a null provider_name, so the next callback with the same identity does not find it and registers again | the key `provider_name`, as the link path uses at src/HandeSocialLink.php:141 | not executed; follows from the fillable list | HandleSocialAuthenticate.RegistrationAsWrittenIsNotFound | HandleSocialAuthenticate.RegistrationAttachesCredential |
| src/HandleSocialAuthenticate.php:225 | the avatar column is written from `getName()` | a social user named `Ann` with avatar `https://img/ann.png`: the avatar column holds `Ann` | `getAvatar()`, as src/AuthWithSocialite.php:100 does | not executed; visible in the field list | HandleSocialAuthenticate.AvatarAsWrittenIsName | HandleSocialAuthenticate.UpdateSocialCredentialFields |
