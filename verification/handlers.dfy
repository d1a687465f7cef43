/** The webhook endpoint: a parsed `TokenReview` request goes to a provider's
    lookup, and the outcome becomes a `TokenReview` response document or a
    server error whose body is the error text.

  The provider is a parameter (`lookup`), standing for the `Provider`
  interface; reading the request body and JSON decoding are folded into the
  `request` input, whose `Failure` carries their error text.
 */
module Handlers {
  import opened Wrappers
  import opened Identities
  import opened Strings

  /** The only accepted API version, and the kind of every response. */
  const APIVersion: string := "authentication.k8s.io/v1beta1"
  const Kind: string := "TokenReview"

  /** The text the version error starts with, followed by the received version. */
  const UnsupportedVersion: string := "Unsupported API version "

  const StatusOK: int := 200
  const StatusInternalServerError: int := 500

  /** The fields of an incoming review that the handler reads: `apiVersion` and `spec.token`. */
  datatype TokenReview = TokenReview(apiVersion: string, token: string)

  /** The `status.user` object of a response. */
  datatype ReviewUser = ReviewUser(username: string, groups: seq<string>)

  /** The `status` object of a response; `user` is left out when unauthenticated. */
  datatype ReviewStatus = ReviewStatus(authenticated: bool, user: Option<ReviewUser>)

  datatype TokenReviewResponse = TokenReviewResponse(apiVersion: string, kind: string, status: ReviewStatus)

  /** The fixed answer for a caller the provider does not know. */
  const UnauthenticatedResponse: TokenReviewResponse :=
    TokenReviewResponse(APIVersion, Kind, ReviewStatus(false, None))

  /** What is written back: a status code and either a response document or plain text. */
  datatype ReplyBody = Document(review: TokenReviewResponse) | Text(message: string)
  datatype Reply = Reply(status: int, body: ReplyBody)

  /** Decides a review: the version is checked first, the trimmed token is
      looked up, and the three lookup outcomes map to an error, the
      unauthenticated response, or an authenticated one. A provider may have
      tokens it cannot answer (it would panic); the token of a request that
      reaches the provider must not be one of them. */
  function ReviewAuthentication(request: Result<TokenReview, string>, lookup: string --> LookupResult)
    : (r: Result<TokenReviewResponse, string>)
    requires request.Success? && request.value.apiVersion == APIVersion ==>
               lookup.requires(TrimSpace(request.value.token))
    ensures request.Failure? ==> r == Failure(request.error)
    ensures request.Success? && request.value.apiVersion != APIVersion ==>
              && r.Failure?
              && r.error == UnsupportedVersion + request.value.apiVersion
              && r.error[|r.error| - |request.value.apiVersion|..] == request.value.apiVersion
    ensures r.Success? ==> r.value.apiVersion == APIVersion && r.value.kind == Kind
    ensures r.Success? ==> (r.value.status.authenticated <==> r.value.status.user.Some?)
    ensures request.Success? && request.value.apiVersion == APIVersion ==>
              var answer := lookup(TrimSpace(request.value.token));
              && (answer.Failure? ==> r == Failure(answer.error))
              && (answer.Success? && answer.value.None? ==> r == Success(UnauthenticatedResponse))
              && (answer.Success? && answer.value.Some? ==>
                    && r.Success?
                    && r.value.status.authenticated
                    && r.value.status.user == Some(ReviewUser(answer.value.value.username, answer.value.value.groups)))
  {
    var review :- request;
    if review.apiVersion != APIVersion then
      Failure(UnsupportedVersion + review.apiVersion)
    else
      var token := TrimSpace(review.token);
      var found :- lookup(token);
      match found
      case None => Success(UnauthenticatedResponse)
      case Some(info) =>
        Success(TokenReviewResponse(APIVersion, Kind,
          ReviewStatus(true, Some(ReviewUser(info.username, info.groups)))))
  }

  /** The HTTP wrapper: any error becomes status 500 with the error text as
      body; otherwise the response document is written with status 200. */
  function Authentication(request: Result<TokenReview, string>, lookup: string --> LookupResult): (reply: Reply)
    requires request.Success? && request.value.apiVersion == APIVersion ==>
               lookup.requires(TrimSpace(request.value.token))
    ensures var review := ReviewAuthentication(request, lookup);
            && (reply.status == StatusInternalServerError <==> review.Failure?)
            && (review.Failure? ==> reply.body == Text(review.error))
            && (review.Success? ==> reply.status == StatusOK && reply.body == Document(review.value))
  {
    match ReviewAuthentication(request, lookup)
    case Failure(e) => Reply(StatusInternalServerError, Text(e))
    case Success(review) => Reply(StatusOK, Document(review))
  }

  /** A request with the wrong version is answered without consulting the provider. */
  lemma VersionMismatchSkipsLookup(review: TokenReview, lookup: string --> LookupResult, lookup': string --> LookupResult)
    requires review.apiVersion != APIVersion
    ensures ReviewAuthentication(Success(review), lookup) == ReviewAuthentication(Success(review), lookup')
  {
  }

  /** The provider sees exactly the trimmed token: two providers that agree on
      it lead to the same answer. */
  lemma LookupSeesTrimmedToken(review: TokenReview, lookup: string --> LookupResult, lookup': string --> LookupResult)
    requires lookup.requires(TrimSpace(review.token)) && lookup'.requires(TrimSpace(review.token))
    requires lookup(TrimSpace(review.token)) == lookup'(TrimSpace(review.token))
    ensures ReviewAuthentication(Success(review), lookup) == ReviewAuthentication(Success(review), lookup')
  {
  }

  /** White space around the token does not change the answer. */
  lemma PaddedTokenSameAnswer(version: string, w: string, token: string, w': string, lookup: string --> LookupResult)
    requires AllSpace(w) && AllSpace(w')
    requires version == APIVersion ==> lookup.requires(TrimSpace(token))
    ensures TrimSpace(w + token + w') == TrimSpace(token)
    ensures ReviewAuthentication(Success(TokenReview(version, w + token + w')), lookup)
         == ReviewAuthentication(Success(TokenReview(version, token)), lookup)
  {
    TrimSpaceIgnoresPadding(w, token, w');
  }
}
