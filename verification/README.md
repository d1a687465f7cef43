# Rancher Kubernetes authentication webhook — token resolution model

A Dafny model of the decision logic of Rancher's Kubernetes authentication
webhook. The webhook receives a `TokenReview` request and trims its bearer
token. A provider's `Lookup` resolves the token to a Kubernetes user, to
"absent" (unauthenticated), or to an error, and the handler turns that
outcome into a `TokenReview` response or an HTTP 500.

The Rancher provider's `Lookup` works in this order:

1. An empty token is absent.
2. The pre-shared bootstrap token is the fixed `bootstrap` user in group
   `system:masters`.
3. Any other token is base64-decoded.
4. The decoded token is exchanged for its identity collection.
5. The identity collection becomes a user record (`getUserInfoFromIdentityCollection`).
6. The record is admitted only if its UID is a member of the first Rancher
   project (the "environment"). An `owner` member also gets `system:masters`.

The package's other revision (`authentication/rancher/identity.go`) defines
a different rule, `shouldBeAuthenticated`: any identity of the collection,
user or group, that is on the roster authenticates the caller. No code in the
package calls it. It is modelled too, and its relation to `Lookup` is proved.

Layout, one module per file:

- `wrappers.dfy` (`Wrappers`): `Option` and `Result`, usable with `:-`.
- `identities.dfy` (`Identities`): identities, the user record and the
  `LookupResult` outcome type (`Failure` = error, `Success(None)` = absent,
  `Success(Some(u))` = user). It also holds the selection loop of
  `getUserInfoFromIdentityCollection`. This function has the same body in
  `authentication/rancher/authentication.go:104-130` and in
  `authentication/rancher/identity.go:10-36`, so it is modelled once.
- `roster.dfy` (`Roster`): the member map of the first project and
  `shouldBeAuthenticated`. `getCurrentEnvironmentMembers`
  (`authentication/rancher/authentication.go:132-150`) and
  `getEnvironmentIdentities` (`authentication/rancher/identity.go:38-59`)
  have the same body and are modelled once, as `CurrentEnvironmentMembers`.
- `rancher_provider.dfy` (`RancherProvider`): the Rancher `Lookup`.
- `test_provider.dfy` (`TestProvider`): the canned test provider.
- `strings.dfy` (`Strings`): Go's `strings.TrimSpace`, with the exact white
  space set of `unicode.IsSpace`.
- `handlers.dfy` (`Handlers`): `reviewAuthentication` and the HTTP wrapper
  `Authentication`.
- `webhook.dfy` (`Webhook`): end-to-end properties of the handler wired to
  each provider.

Everything `Lookup` would call outside itself is a plain input, the
`Services` record. It holds:

- the base64 decoder, as a function from token to decoded text or error text;
- the identity endpoint, as a function from the decoded token to an identity
  collection or error text (HTTP transport, body read and JSON parsing form
  one step);
- the project listing, as a result;
- the member listing, as a function from a project id to members or error text.

The provider behind the handler is a function parameter. It stands for the
Go `Provider` interface (`authentication/authentication.go` is not part of
this model). The handler's JSON request parsing is an input
`Result<TokenReview, string>`.

How `Lookup` and `shouldBeAuthenticated` differ:

- `Lookup` checks only the UID of the selected user identity, while
  `shouldBeAuthenticated` consults every identity.
  `RancherProvider.GroupOnRosterIsNotEnough` shows a caller that the
  any-identity rule admits and that `Lookup` answers as absent.
- With no user identity, the selected UID is empty, and `Lookup` still looks
  it up in the roster. `RancherProvider.EmptyCollectionAdmittedByBlankMember`
  shows an empty collection admitted as a master by a roster entry with an
  empty id, which the any-identity rule rejects. For this reason
  `RancherProvider.LookupImpliesShouldBeAuthenticated` is stated for a
  non-empty UID only.

The code never checks the HTTP status code of the identity endpoint's
response. It decodes whatever body arrives, and the model's identity-fetch
input stands for the outcome of that decode.

## Model

| member | source | states |
|---|---|---|
| Identities.LastUserIndex | authentication/rancher/identity.go:14-20 | the position of the last user identity of one kind (native `rancher_id` or federated): no later identity is a user of that kind, and -1 means the collection has none |
| Identities.GroupNames | authentication/rancher/identity.go:21-23 | the group names hold exactly the `type:login` renderings of the non-user identities, and there are no more of them than identities |
| Identities.GroupNamesAppend | authentication/rancher/authentication.go:115-117 | group names of a concatenation are the concatenation of the group names, so collection order is kept |
| Identities.GroupsOnlyRendersAll | authentication/rancher/authentication.go:108-118 | a collection of groups only yields one name per identity, position by position |
| Identities.UsersOnlyRenderNothing | authentication/rancher/authentication.go:108-118 | user identities contribute no group names |
| Identities.Scan | authentication/rancher/identity.go:11-24 | after the loop, the two identity variables hold the last native and the last federated user identity (zero values if none), and the groups are the rendered group identities in order |
| Identities.UserInfoFromIdentities | authentication/rancher/authentication.go:104-130 | username and UID come from the last federated user identity, or from the last native one when the federated id is empty and the native id is not; the groups are the rendered group identities in order |
| Identities.UserFromOneIdentity | authentication/rancher/identity.go:26-35 | a non-empty UID and its username come from one and the same user identity of the collection, and both are empty when the collection has no user identity |
| Identities.FederatedUserPreferred | authentication/rancher/authentication.go:120-123 | a last federated user identity with a non-empty id always supplies username and UID |
| Roster.LastIndexWithId | authentication/rancher/authentication.go:146-148 | the position of the last listed member with a given id, or -1 when no member has it |
| Roster.MembersById | authentication/rancher/authentication.go:145-148 | the member map has a key exactly for each listed member id, and it maps to the last member with that id (later duplicates overwrite) |
| Roster.RosterKeysAreMemberIds | authentication/rancher/identity.go:53-56 | an id is a key of the member map iff some listed member has it, and the entry carries that id |
| Roster.CurrentEnvironmentMembers | authentication/rancher/authentication.go:132-150 | a failed project listing or member listing is that error. When both succeed the result is a map, whose keys are exactly the ids of the first project's members, each mapped to the last member with that id; a successful project listing must hold at least one project |
| Roster.ShouldBeAuthenticated | authentication/rancher/identity.go:61-76 | authenticated iff some identity, user or group, has its id on the roster; master iff some identity's roster entry has role `owner`, despite the early break. Master implies authenticated, and an empty collection or roster gives (false, false) |
| Roster.DecisionIgnoresOrder | authentication/rancher/identity.go:65-73 | collections with the same elements in any order get the same authenticated and master answers |
| RancherProvider.Lookup | authentication/rancher/authentication.go:46-102 | defined for every backend except an empty successful project listing, and that only for tokens that reach the roster (where the code reads the first project); the empty token is absent; a non-empty bootstrap token is the `bootstrap` user in `system:masters`; errors come from decoding, then the identity fetch, then the roster, in that order; a returned non-bootstrap user's UID is a member of the first project; when every step succeeds the result is absent iff the selected UID is not on the roster, and an owner's groups gain `system:masters` while other roles keep the collection groups |
| RancherProvider.IdentityFetchPrecedesRoster | authentication/rancher/authentication.go:46-90 | for a token that does not reach the roster (empty, the bootstrap token, a decode failure or an identity-fetch failure) the result does not depend on the project or member listings, an empty listing included |
| RancherProvider.MasterGroupOnlyForOwners | authentication/rancher/authentication.go:93-98 | `system:masters` appears in a looked-up user only for the bootstrap token, for an owner of the environment, or when a group identity itself renders as `system:masters` |
| RancherProvider.LookupImpliesShouldBeAuthenticated | authentication/rancher/authentication.go:85-99 | when the selected UID is non-empty and on the roster, `Lookup` admits the user and the any-identity rule authenticates it too; its master group comes from an owner entry or a group rendering |
| RancherProvider.OwnerIsMaster | authentication/rancher/authentication.go:93-98 | a native user `u1` listed as `owner` is returned as `alice`/`u1` with groups `[system:masters]` |
| RancherProvider.NonMemberIsAbsent | authentication/rancher/authentication.go:93-101 | a user `u2` missing from the roster is absent, not an error |
| RancherProvider.GroupOnRosterIsNotEnough | authentication/rancher/authentication.go:93 | a caller whose only roster entry is one of its groups is admitted by the any-identity rule but is absent for `Lookup` |
| RancherProvider.EmptyCollectionAdmittedByBlankMember | authentication/rancher/authentication.go:85-99 | an empty identity collection selects the empty UID, and a roster listing an owner with an empty id admits it as a master, while the any-identity rule rejects it |
| TestProvider.Lookup | authentication/test/authentication.go:6-30 | never an error; a user iff the token is a key of the canned table (`test1`, `test2`, `test3`, `admin`), namely that table entry, whose username equals the token, with no groups and an empty UID; any other token, the empty one included, is absent |
| Strings.TrimSpace | handlers/authentication.go:74 | the result is the input with white-space margins removed: a slice of the input with only white space before and after it, and neither end white space |
| Strings.TrimmingIsUnique | handlers/authentication.go:74 | only one string is such a trimming, so the contract of `TrimSpace` determines its result |
| Strings.TrimSpaceIdempotent | handlers/authentication.go:74 | trimming twice is trimming once |
| Strings.TrimSpaceIgnoresPadding | handlers/authentication.go:74 | white space added around a string does not change its trimming |
| Strings.TrimSpaceOfBlank | handlers/authentication.go:74 | a string of white space only trims to the empty string |
| Handlers.ReviewAuthentication | handlers/authentication.go:56-95 | a parse error propagates. A wrong API version is the error `Unsupported API version <v>`, ending with the received version. Otherwise the provider's answer for the trimmed token is mapped: an error propagates, absent gives the fixed unauthenticated response, and a user gives `authenticated: true` with its username and groups. Every response carries the fixed API version and kind `TokenReview`, and `user` is present exactly when authenticated. The provider must be able to answer the trimmed token |
| Handlers.Authentication | handlers/authentication.go:36-54 | status 500 iff the review failed, with the error text as body; otherwise status 200 with the response document |
| Handlers.VersionMismatchSkipsLookup | handlers/authentication.go:70-72 | a wrong API version is answered the same whatever the provider would say |
| Handlers.LookupSeesTrimmedToken | handlers/authentication.go:74-76 | two providers that agree on the trimmed token give the same answer |
| Handlers.PaddedTokenSameAnswer | handlers/authentication.go:74-76 | white space around the token does not change the answer |
| Webhook.BlankTokenUnauthenticated | handlers/authentication.go:74-82 | with the Rancher provider and any backend answers, an empty project listing included, a white-space-only token gets status 200 and the unauthenticated response |
| Webhook.PaddedBootstrapTokenIsMaster | authentication/rancher/authentication.go:51-56 | with any backend answers, an empty project listing included, a trimmed, non-empty bootstrap token padded with white space is answered as the authenticated `bootstrap` user in `system:masters` |
| Webhook.WrongVersionIsServerError | handlers/authentication.go:70-72 | a request with another API version gets status 500 and the body `Unsupported API version <v>` |
| Webhook.CannedUserAuthenticated | authentication/test/authentication.go:6-30 | through the handler, a canned token is answered as authenticated with username equal to the token and no groups |

## Left out

- RancherProvider.Lookup: requires a non-empty successful project listing, but only for tokens that reach the roster (non-empty, not the bootstrap token, decoded, identities fetched). There `getCurrentEnvironmentMembers` reads the first project, and Go panics on an empty list; a panic is not one of the three outcomes. The handler passes this on as a requirement that the provider can answer the trimmed token (`Webhook.RancherLookup` is the Rancher provider restricted to those tokens).
- `NewProvider`: reading the backend URL and keys from the environment, and building the API client, is configuration. The model takes the provider's bootstrap token and the `Services` answers instead.
- HTTP transport of the identity fetch: the 30-second timeout, the `Authorization` header and the ignored `http.NewRequest` error are not modelled. Transport, body read and JSON decode are one input result.
- Base64 decoding is an input function, not a re-implementation of the standard encoding.
- JSON parsing of the request body and JSON marshalling of the response are left out. The request is an already-parsed record, and the response is a datatype.
- Handlers.Authentication: the `json.Marshal` failure branch is left out. Marshalling a document of strings, booleans and string lists does not fail. Go's distinction between a nil and an empty group list (`null` vs `[]` in JSON) is also left out.
- Strings.TrimSpace: works on characters. Go's handling of invalid UTF-8 bytes is not modelled.
- Logging (`log.Debugf`) has no effect on outcomes and is left out.
- The unused `userInfo` table in `handlers/authentication.go` is referenced nowhere and is left out.
- Identities and project members keep only the fields the core reads: id, login, user flag and external id type for identities; id and role for members.
- The process shell (`main.go`: flags, the stdin bootstrap token, the one-shot evaluation, the two listeners) and the health check are left out. `Webhook.PaddedBootstrapTokenIsMaster` assumes the bootstrap token arrives trimmed, as `main.go` trims it.
