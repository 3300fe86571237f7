# Video-hosting backend: request decisions of the HTTP handlers

This project models the decision logic of a small video-hosting backend's HTTP
handlers: video-metadata create/delete/get/list, thumbnail upload and fetch,
video upload to a bucket, and the middleware that binds the configuration,
disables caching and turns thrown errors into JSON responses.

Each handler is a short check chain followed by at most one update. The model
states, for every handler, which error each request gets, in what order the
checks run, that a rejected request changes nothing, and exactly what an
accepted one changes.

- `Api` (`api.dfy`) holds the shared values. These are the video record, the
  configuration, and what a handler can throw (the four API error classes, any
  other `Error`, a thrown string, any other value). They also include the token
  outcome, a multipart form entry, and the response. `Headers` is a class over a
  map whose keys are lower-cased header names; its invariant `Valid()` says so,
  and `Lower` is proved to fix exactly the lower-case names.
- `Store` (`store.dfy`) holds the `Storage` class. The metadata store is a
  `map<string, Video>` keyed by id. The local assets directory is a set of
  paths, and the bucket is a map from key to content type. A ghost log `io`
  records the file operations in order. Its methods are the store and file
  operations the handlers call.
- `MediaType` (`media_type.dfy`) models `getFileExtensionFromMediaType`, which
  both upload handlers define identically. It uses `Split`, a model of
  `String.split` with a one-character separator, proved to be inverted by
  `Join`.
- `Thumbnails`, `Videos` and `VideoMeta` each model one handler file.
  `Middleware` models `middleware.ts`. For the upload handlers and for delete, a
  pure `...Rejection` function states the check chain. The handler method's
  contract then says "rejected: thrown error, state unchanged; accepted: this
  exact new state".

Inputs the model cannot compute are parameters:
- the bearer-token outcome (`Token`);
- the form entry (`FormEntry`: declared size and media type);
- the random file name;
- the id the store generates on create;
- the uuid package's verdict on the video id;
- `path.join`, which is the function field `pathJoin` of `ApiConfig` and is left
  uninterpreted.

Behaviour of the code worth knowing:
- Thumbnail upload checks the file (part, size, type) before it looks up the
  record and checks ownership.
- Video upload reports a missing record as 403 Forbidden. The test is
  `video?.userID !== userId`.
- Video upload does no aspect-ratio probe and no remux. The bucket key is just
  `<videoId>.mp4`.
- Video upload deletes the local copy after the bucket write.
- Video upload parses the id with the uuid package after the local write. An id
  that does not parse fails with a 500-class error and leaves the local file
  behind. The earlier checks make this reachable only for a stored record whose
  id is not a UUID.
- `handlerVideoGet` does not authenticate the caller.

## Model

| member | source | states |
|---|---|---|
| `MediaType.Split` | src/api/thumbnails.ts:82 | `split("/")` yields one more piece than there are separators, and no piece holds the separator |
| `MediaType.JoinSplit` | src/api/thumbnails.ts:82 | joining the pieces of a split with the same separator gives the original string back |
| `MediaType.SplitPair` | src/api/thumbnails.ts:82 | `a/b` with separator-free `a` and `b` splits into exactly `[a, b]` |
| `MediaType.Extension` | src/api/thumbnails.ts:81-84 | with exactly one "/" the extension is the separator-free text after it; with none or several it is "bin" |
| `MediaType.ExtensionOfTypeAndSubtype` | src/api/thumbnails.ts:81-84 | the extension of `type/subtype` is `subtype` |
| `MediaType.ExtensionOfPng` | src/api/thumbnails.ts:81-84 | "image/png" gives "png" |
| `MediaType.ExtensionOfJpeg` | src/api/thumbnails.ts:81-84 | "image/jpeg" gives "jpeg" |
| `MediaType.ExtensionOfMp4` | src/api/videos.ts:58-61 | "video/mp4" gives "mp4" |
| `MediaType.ExtensionFallback` | src/api/thumbnails.ts:81-84 | "abc" and "a/b/c" give "bin" |
| `Thumbnails.GetThumbnail` | src/api/thumbnails.ts:18-35 | BadRequest for a missing id and NotFound for an unknown one. Otherwise 200 with the stored thumbnail URL as body (none if unset), JPEG content type and `Cache-Control: no-store`. The store is only read |
| `Thumbnails.UploadThumbnailRejection` | src/api/thumbnails.ts:37-71 | accepted iff every check passes; a file of exactly 10485760 bytes passes. A missing id is BadRequest before the token is looked at, and the size check precedes the type check. Past the token, each rejection names its cause. NotFound and Forbidden come only after the file has passed |
| `Thumbnails.ThumbnailExtension` | src/api/thumbnails.ts:72 | an allowed media type gives the extension "png" or "jpeg" |
| `Thumbnails.UploadThumbnail` | src/api/thumbnails.ts:37-79 | rejected: the check chain's error is thrown; store, files, bucket and log are unchanged. Accepted: one local write at `join(assetsRoot, <random>.<ext>)`. Only that record's `thumbnailURL` changes, to `http://localhost:<port>/<path>`. Status 200 with the updated record |
| `Thumbnails.GetAfterUpload` | src/api/thumbnails.ts:76-77 | after the update, fetching the thumbnail returns the new URL |
| `Videos.UploadVideoRejection` | src/api/videos.ts:20-38 | accepted iff the token is valid, the file is present, at most 1073741824 bytes, exactly `video/mp4`, and the record exists and is the caller's. The size check precedes the type check. A missing record is Forbidden, never NotFound |
| `Videos.UploadFileName` | src/api/videos.ts:39 | for `video/mp4` the file name is `<videoId>.mp4` |
| `Videos.Publish` | src/api/videos.ts:40-55 | the log is local write, then bucket write, then local delete, so no local file remains. Only the record's `videoURL` changes, to `https://<bucket>.s3.<region>.amazonaws.com/<fileName>`, with status 200. An id that fails to parse stops after the local write |
| `Videos.UploadVideo` | src/api/videos.ts:20-56 | rejected: the check chain's error is thrown; store, files, bucket and log are unchanged. Accepted: the effects of `Publish` for `<videoId>.mp4` |
| `VideoMeta.VideoMetaCreate` | src/api/video-meta.ts:8-24 | an invalid token or a missing or empty title or description throws and adds nothing. Otherwise it adds exactly one record, owned by the caller, with the given title and description, and answers 201 with it. Files are untouched |
| `VideoMeta.VideoMetaDeleteRejection` | src/api/video-meta.ts:26-41 | a missing id is BadRequest before the token is looked at. Past the token, NotFound is given exactly for an unknown id and Forbidden exactly for someone else's video. Accepted iff all pass |
| `VideoMeta.VideoMetaDelete` | src/api/video-meta.ts:26-45 | rejected: store unchanged. Accepted: exactly the key `videoId` is removed, every other record is kept, and the answer is 204 with no body |
| `VideoMeta.VideoGet` | src/api/video-meta.ts:47-59 | BadRequest for a missing id and NotFound for an unknown one; otherwise 200 with the stored record. The store is only read |
| `VideoMeta.VideosRetrieve` | src/api/video-meta.ts:61-67 | an invalid token throws its error. Otherwise a 200 JSON response with exactly the caller's videos. The store is only read |
| `VideoMeta.GetAfterCreate` | src/api/video-meta.ts:17-23 | a created record can be fetched back unchanged |
| `VideoMeta.ListAfterCreate` | src/api/video-meta.ts:17-23 | a created record appears in its owner's list |
| `VideoMeta.GetAfterDelete` | src/api/video-meta.ts:43 | after a delete, fetching the id gives NotFound |
| `Middleware.WithConfig` | src/api/middleware.ts:13-15 | `withConfig(cfg, h)(req)` equals `h(cfg, req)` for every request |
| `Middleware.NoCache` | src/api/middleware.ts:17-31 | keeps status, status text, body and every header except `cache-control`, which is set to "no-store" whether or not it was there; all header names stay lower-case |
| `Middleware.ErrString` | src/api/middleware.ts:65-69 | a thrown string is reported as it is, an `Error` by its message, anything else as "An unknown error occurred" |
| `Middleware.ErrorHandling` | src/api/middleware.ts:33-69 | the mapping is BadRequest→400, NotAuthenticated→401, Forbidden→403, NotFound→404, anything else→500. 4xx statuses carry the error's message. A 500 carries "Something went wrong on our end", except on platform "dev", where it carries the thrown string, the `Error` message or "An unknown error occurred". The body is `{error: message}` |
| `Store.Storage.CreateVideo` | src/api/video-meta.ts:17-21 | adds one record under the fresh id, with no thumbnail or video URL |
| `Store.Storage.UpdateVideo` | src/api/thumbnails.ts:77 | replaces the record with the same id |
| `Store.Storage.DeleteVideo` | src/api/video-meta.ts:43 | removes exactly the given key |
| `Store.Storage.WriteLocal` | src/api/thumbnails.ts:75 | adds the path to the local files and logs the write |
| `Store.Storage.WriteRemote` | src/api/videos.ts:44-48 | stores the key in the bucket with its content type and logs the write |
| `Store.Storage.DeleteLocal` | src/api/videos.ts:49 | removes the path from the local files and logs the delete |
| `Api.Lower` | src/api/middleware.ts:23 | lower-casing a header name leaves no upper-case letter and changes only the upper-case letters, each to its lower-case counterpart |
| `Api.LowerFixed` | src/api/middleware.ts:23 | a name is unchanged by lower-casing exactly when it is already lower-case |
| `Api.Headers.constructor` | src/api/middleware.ts:22 | copies the response's headers, whose names are lower-case |
| `Api.Headers.Set` | src/api/middleware.ts:23 | replaces the value under the lower-cased name and keeps every name lower-case |

## Left out

- Aspect-ratio classification and remuxing. `src/utils.ts` only starts `ffprobe` and returns nothing, and no handler calls it, so there is no behaviour to model.
- Routing, static file serving and configuration loading (`src/index.ts`, `src/config.ts`). These are framework and environment plumbing.
- Token parsing and JWT validation (`src/auth.ts` is not part of this model). Their outcome is the `Token` input.
- The database module (`src/db/videos.ts` is not part of this model). It is a map keyed by id. Timestamps and any other columns are not modelled. The order in which `getVideos` returns rows is not modelled, so a list is a set.
- The JSON helper (`src/api/json.ts` is not part of this model). `respondWithJSON` is taken to set only the JSON content type, with an empty status text.
- The error classes (`src/api/errors.ts` is not part of this model). Each is taken to carry the message it was built with.
- File contents. Only the declared size and media type of an upload are modelled, as the handlers only look at those.
- Failures of I/O and of body parsing. A `formData()` or `json()` that throws, or a failed disk write, bucket write or delete, would surface as a 500. This is not modelled.
- Logging (`console.log`), asynchrony, and concurrent requests. Each request is one sequential call.
- JSON fields that are not strings. Title and description are modelled as optional strings, so a truthy non-string value is not covered.
- `randomBytes(...).toString("base64")` and `path.join`. These are an opaque input string and an uninterpreted function.
- Fetch `Headers` beyond the lower-casing of names. Multi-valued headers are not modelled.
- VideoMeta.VideoMetaCreate: requires the new id to be absent from the store. The store's id generator, not shown, guarantees this.
