/**
 * The client's declarations: the errors it reports, the shape of a request
 * handed to the requester and of its answer, and what a lookup returns.
 */
module Types {
  import opened Wrappers
  import opened Model

  /**
   * ErrNotFound, the generic client error wrapping a status line, and the
   * errors of the filesystem and the JSON decoder, which are passed on as
   * they are.
   */
  datatype Error =
    | NotFound
    | Failure(reason: string)
    | MalformedJson

  /** A requester call: the URL path and the query parameters. */
  datatype Request = Request(path: string, params: map<string, string>)

  /**
   * What the requester produces for a call: the body it decoded (which
   * may be of the wrong kind, or absent, when the call failed) and its
   * error, if any.
   */
  datatype Response = Response(body: Option<Payload>, err: Option<Error>)

  /** The `(Record[T], error)` pair a lookup returns. */
  datatype Outcome = Outcome(record: Record, err: Option<Error>)

  /** SearchReleaseResult: when the search ran, the total hit count, the page offset and the page. */
  datatype SearchReleaseResult = SearchReleaseResult(created: Time, count: int, offset: int, releases: seq<Release>)

  /** SearchReleaseGroupResult, the same envelope around release groups. */
  datatype SearchReleaseGroupResult =
    SearchReleaseGroupResult(created: Time, count: int, offset: int, releaseGroups: seq<ReleaseGroup>)
}
