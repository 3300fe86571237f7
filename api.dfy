/** Values shared by the HTTP handlers: video records, configuration, what a
    handler may throw, the parts of a request the handlers look at, and the
    responses they build. */
module Api {

  datatype Option<+T> = None | Some(value: T)

  /** A video record as the metadata store keeps it. */
  datatype Video = Video(
    id: string,
    userID: string,
    title: string,
    description: string,
    thumbnailURL: Option<string>,
    videoURL: Option<string>)

  /** The configuration every handler receives. `pathJoin` stands for
      `path.join` of the host platform, which the model leaves uninterpreted. */
  datatype ApiConfig = ApiConfig(
    platform: string,
    assetsRoot: string,
    s3Bucket: string,
    s3Region: string,
    port: string,
    pathJoin: (string, string) -> string)

  /** What a handler can throw. The first four are the API's own error
      classes; `OtherError` is any other `Error` instance; a thrown string and
      any other thrown value are the remaining cases of `unknown`. */
  datatype Thrown =
    | BadRequestError(message: string)
    | UserNotAuthenticatedError(message: string)
    | UserForbiddenError(message: string)
    | NotFoundError(message: string)
    | OtherError(message: string)
    | ThrownString(text: string)
    | ThrownValue

  /** The outcome of reading the bearer token and validating it: the user id
      it carries, or what token parsing or validation throws. */
  datatype Token = Authenticated(userID: string) | TokenRejected(error: Thrown)

  /** One entry of a multipart form: an uploaded file (its declared size and
      media type), a plain text field, or nothing under that name. */
  datatype FormEntry = FileEntry(size: nat, mediaType: string) | TextEntry(text: string) | NoEntry

  /** A response body. A JSON list of videos is kept as a set: the order in
      which the store returns them is not part of the model. */
  datatype Payload =
    | NoBody
    | Text(text: string)
    | VideoJson(video: Video)
    | VideoListJson(videos: set<Video>)
    | ErrorJson(error: string)

  /** A response; header names are kept lower-case, as Fetch `Headers` stores them. */
  datatype Response = Response(status: int, statusText: string, headers: map<string, string>, body: Payload)

  /** A handler either returns a response or throws. */
  datatype HandlerResult = Returned(response: Response) | Threw(error: Thrown)

  /** `!videoId` in the handlers: the route parameter is absent or empty. */
  predicate IdMissing(videoId: Option<string>)
  {
    videoId.None? || videoId.value == ""
  }

  const ContentType := "content-type"
  const CacheControl := "cache-control"

  /** The response `respondWithJSON` builds (its module is not part of this
      model; it is taken to set only the JSON content type). */
  function RespondWithJson(status: int, body: Payload): Response
  {
    Response(status, "", map[ContentType := "application/json"], body)
  }

  function LowerChar(c: char): char
  {
    if 'A' <= c <= 'Z' then (c as int + 32) as char else c
  }

  /** No ASCII upper-case letter occurs in `s`. */
  predicate IsLower(s: string)
  {
    forall i :: 0 <= i < |s| ==> !('A' <= s[i] <= 'Z')
  }

  /** Every name in a header map is lower-case. */
  predicate LowerNames(headers: map<string, string>)
  {
    forall name | name in headers :: IsLower(name)
  }

  /** ASCII lower-casing, which `Headers` applies to every header name: the
      result has no upper-case letter and differs from `s` only where `s` has
      one, which becomes its lower-case counterpart. */
  function Lower(s: string): (r: string)
    ensures |r| == |s| && IsLower(r)
    ensures forall i :: 0 <= i < |s| && !('A' <= s[i] <= 'Z') ==> r[i] == s[i]
    ensures forall i :: 0 <= i < |s| && 'A' <= s[i] <= 'Z' ==> r[i] as int == s[i] as int + 32
  {
    seq(|s|, i requires 0 <= i < |s| => LowerChar(s[i]))
  }

  /** Lower-casing leaves exactly the lower-case names unchanged, so it is
      idempotent. */
  lemma LowerFixed(s: string)
    ensures Lower(s) == s <==> IsLower(s)
  {
    if IsLower(s) {
      assert forall i :: 0 <= i < |s| ==> Lower(s)[i] == s[i];
    }
  }

  /** A Fetch `Headers` object: a map from lower-cased names to values. */
  class Headers {
    var entries: map<string, string>

    ghost predicate Valid()
      reads this
    {
      LowerNames(entries)
    }

    /** `new Headers(init)` copies the headers of an existing response, whose
        names are already lower-case. */
    constructor (init: map<string, string>)
      requires LowerNames(init)
      ensures Valid() && entries == init
    {
      entries := init;
    }

    /** `headers.set(name, value)` replaces any value under the name,
        whatever its letter case. */
    method Set(name: string, value: string)
      requires Valid()
      modifies this
      ensures Valid() && entries == old(entries)[Lower(name) := value]
    {
      entries := entries[Lower(name) := value];
    }
  }
}
