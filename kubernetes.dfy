/**
 * The Kubernetes API calls the proxy makes, as values: the answers of the
 * TokenReview and SubjectAccessReview endpoints for the configured cluster.
 */
module Kubernetes {

  /** TokenReview status: whether the token authenticated, as whom, and the server's error text. */
  datatype TokenReviewStatus = TokenReviewStatus(authenticated: bool, username: string, error: string)

  datatype TokenReviewReply = TokenReviewFailed(cause: string) | TokenReviewed(status: TokenReviewStatus)

  /** The resource attributes of one SubjectAccessReview, with the user and groups asking. */
  datatype AccessReview = AccessReview(user: string, groups: seq<string>, group: string, version: string,
                                       namespace: string, verb: string, resource: string)

  /**
   * A failed call still yields client-go's empty result object, whose
   * Allowed is false; `AccessReviewFailed` stands for that case.
   */
  datatype AccessReviewReply = AccessReviewFailed(cause: string) | AccessReviewed(allowed: bool)

  /**
   * The cluster behind CLUSTER_URL and OAUTH_TOKEN: whether a client can be
   * built from that configuration, and the reviews' answers.
   */
  datatype Cluster = Cluster(clientOk: bool,
                             tokenReview: string -> TokenReviewReply,
                             accessReview: AccessReview -> AccessReviewReply)
}
