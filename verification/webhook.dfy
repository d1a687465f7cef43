/** The endpoint wired to each provider: end-to-end properties of a review. */
module Webhook {
  import opened Wrappers
  import opened Identities
  import opened Strings
  import opened Handlers
  import RancherProvider
  import TestProvider

  /** The Rancher provider as the handler sees it: defined on the tokens it
      answers without panicking. */
  function RancherLookup(p: RancherProvider.Provider, s: RancherProvider.Services): (lookup: string --> LookupResult)
    ensures forall t :: RancherProvider.CanLookup(p, s, t) ==> lookup.requires(t)
    ensures forall t :: RancherProvider.CanLookup(p, s, t) ==> lookup(t) == RancherProvider.Lookup(p, s, t)
  {
    t requires RancherProvider.CanLookup(p, s, t) => RancherProvider.Lookup(p, s, t)
  }

  /** A token made only of white space is trimmed to the empty token, which
      the Rancher provider answers as unauthenticated. */
  lemma BlankTokenUnauthenticated(p: RancherProvider.Provider, s: RancherProvider.Services, w: string)
    requires AllSpace(w)
    ensures TrimSpace(w) == ""
    ensures Authentication(Success(TokenReview(APIVersion, w)), RancherLookup(p, s))
         == Reply(StatusOK, Document(UnauthenticatedResponse))
  {
    TrimSpaceOfBlank(w);
    assert RancherLookup(p, s)("") == Success(None);
  }

  /** The bootstrap token (read trimmed at start-up) still grants the master
      group when the request pads it with white space. */
  lemma PaddedBootstrapTokenIsMaster(p: RancherProvider.Provider, s: RancherProvider.Services, w: string, w': string)
    requires p.bootstrapToken != "" && TrimSpace(p.bootstrapToken) == p.bootstrapToken
    requires AllSpace(w) && AllSpace(w')
    ensures TrimSpace(w + p.bootstrapToken + w') == p.bootstrapToken
    ensures Authentication(Success(TokenReview(APIVersion, w + p.bootstrapToken + w')), RancherLookup(p, s))
         == Reply(StatusOK, Document(TokenReviewResponse(APIVersion, Kind,
              ReviewStatus(true, Some(ReviewUser("bootstrap", [RancherProvider.MasterGroup]))))))
  {
    var token := w + p.bootstrapToken + w';
    assert TrimSpace(token) == p.bootstrapToken by {
      TrimSpaceIgnoresPadding(w, p.bootstrapToken, w');
    }
    var lookup := RancherLookup(p, s);
    assert lookup(p.bootstrapToken) == Success(Some(RancherProvider.BootstrapUser));
    assert ReviewAuthentication(Success(TokenReview(APIVersion, token)), lookup)
        == Success(TokenReviewResponse(APIVersion, Kind,
             ReviewStatus(true, Some(ReviewUser("bootstrap", [RancherProvider.MasterGroup])))));
  }

  /** A request with another API version is a server error naming that version. */
  lemma WrongVersionIsServerError(version: string, token: string, lookup: string --> LookupResult)
    requires version != APIVersion
    ensures var reply := Authentication(Success(TokenReview(version, token)), lookup);
            && reply.status == StatusInternalServerError
            && reply.body == Text(UnsupportedVersion + version)
  {
  }

  /** The canned provider authenticates its table users, without groups. */
  lemma CannedUserAuthenticated(token: string)
    requires token in TestProvider.TestUserInfo
    ensures Authentication(Success(TokenReview(APIVersion, token)), TestProvider.Lookup)
         == Reply(StatusOK, Document(TokenReviewResponse(APIVersion, Kind,
              ReviewStatus(true, Some(ReviewUser(token, []))))))
  {
    assert TrimsAt(token, token, 0, |token|);
    TrimSpaceIsTheTrimming(token, token, 0, |token|);
  }
}
