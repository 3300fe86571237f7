/** The thumbnail handlers: serving a video's thumbnail reference, and
    uploading a thumbnail image into the local assets root. */
module Thumbnails {
  import opened Api
  import opened Store
  import MediaType

  /** `10 << 20` on 32-bit integers: ten mebibytes. */
  const MaxUploadSize: int := ((10 as bv32) << 20) as int

  const InvalidVideoId := "Invalid video ID"
  const VideoNotFound := "Couldn't find video"
  const InvalidFile := "Invalid thumbnail file"
  const FileTooLarge := "Thumbnail file is too large"
  const InvalidFileType := "Invalid thumbnail file type"
  const NotOwner := "You do not have permission to upload thumbnail for this video"

  /** The allow-list of thumbnail media types, compared exactly. */
  predicate AllowedType(mediaType: string)
  {
    mediaType == "image/png" || mediaType == "image/jpeg"
  }

  /** `handlerGetThumbnail`: the stored thumbnail URL as the body (an empty
      body when there is none), served with the JPEG content type and marked
      not cacheable. It reads the store and changes nothing. */
  function GetThumbnail(videos: map<string, Video>, videoId: Option<string>): (r: HandlerResult)
    ensures r.Returned? <==> !IdMissing(videoId) && videoId.value in videos
    ensures IdMissing(videoId) ==> r == Threw(BadRequestError(InvalidVideoId))
    ensures !IdMissing(videoId) && videoId.value !in videos ==> r == Threw(NotFoundError(VideoNotFound))
    ensures !IdMissing(videoId) && videoId.value in videos ==>
      && r.response.status == 200
      && r.response.headers == map[ContentType := "image/jpeg", CacheControl := "no-store"]
      && r.response.body == match videos[videoId.value].thumbnailURL
                            case Some(url) => Text(url)
                            case None => NoBody
  {
    if IdMissing(videoId) then Threw(BadRequestError(InvalidVideoId))
    else if videoId.value !in videos then Threw(NotFoundError(VideoNotFound))
    else
      var body := match videos[videoId.value].thumbnailURL
                  case Some(url) => Text(url)
                  case None => NoBody;
      Returned(Response(200, "", map[ContentType := "image/jpeg", CacheControl := "no-store"], body))
  }

  /** The check chain of `handlerUploadThumbnail`: the error it throws, or
      `None` when it goes on to write the file. The order is: video id, token,
      file part, size, media type, record lookup, ownership. */
  function UploadThumbnailRejection(videoId: Option<string>, token: Token, thumbnail: FormEntry,
                                    videos: map<string, Video>): (r: Option<Thrown>)
    // Accepted exactly when every check passes; a file of exactly the cap passes.
    ensures r.None? <==>
      && !IdMissing(videoId)
      && token.Authenticated?
      && thumbnail.FileEntry? && thumbnail.size <= 10485760 && AllowedType(thumbnail.mediaType)
      && videoId.value in videos && videos[videoId.value].userID == token.userID
    // The id is checked before the token is looked at.
    ensures IdMissing(videoId) ==> r == Some(BadRequestError(InvalidVideoId))
    ensures !IdMissing(videoId) && token.TokenRejected? ==> r == Some(token.error)
    // The size is checked before the media type.
    ensures !IdMissing(videoId) && token.Authenticated? && thumbnail.FileEntry? && thumbnail.size > 10485760 ==>
      r == Some(BadRequestError(FileTooLarge))
    // Past the token, every rejection names its cause, and the store is only
    // consulted once the file has passed all its checks.
    ensures !IdMissing(videoId) && token.Authenticated? && r.Some? ==>
      || (r.value == BadRequestError(InvalidFile) && !thumbnail.FileEntry?)
      || (r.value == BadRequestError(FileTooLarge) && thumbnail.FileEntry? && thumbnail.size > 10485760)
      || (r.value == BadRequestError(InvalidFileType) && thumbnail.FileEntry? && !AllowedType(thumbnail.mediaType))
      || (r.value == NotFoundError(VideoNotFound) && thumbnail.FileEntry? && AllowedType(thumbnail.mediaType)
          && videoId.value !in videos)
      || (r.value == UserForbiddenError(NotOwner) && thumbnail.FileEntry? && AllowedType(thumbnail.mediaType)
          && videoId.value in videos && videos[videoId.value].userID != token.userID)
  {
    if IdMissing(videoId) then Some(BadRequestError(InvalidVideoId))
    else if token.TokenRejected? then Some(token.error)
    else if !thumbnail.FileEntry? then Some(BadRequestError(InvalidFile))
    else if thumbnail.size > MaxUploadSize then Some(BadRequestError(FileTooLarge))
    else if !AllowedType(thumbnail.mediaType) then Some(BadRequestError(InvalidFileType))
    else if videoId.value !in videos then Some(NotFoundError(VideoNotFound))
    else if videos[videoId.value].userID != token.userID then Some(UserForbiddenError(NotOwner))
    else None
  }

  /** An allowed media type yields "png" or "jpeg" as the file extension. */
  lemma ThumbnailExtension(mediaType: string)
    requires AllowedType(mediaType)
    ensures MediaType.Extension(mediaType) == if mediaType == "image/png" then "png" else "jpeg"
  {
    MediaType.ExtensionOfPng();
    MediaType.ExtensionOfJpeg();
  }

  /** `handlerUploadThumbnail`. A rejected request throws and changes
      nothing. An accepted one writes one file, `<random>.<ext>` under the
      assets root, and changes only the record's thumbnail URL, to a
      localhost URL naming that file. */
  method UploadThumbnail(cfg: ApiConfig, db: Storage, videoId: Option<string>, token: Token,
                         thumbnail: FormEntry, randomName: string) returns (r: HandlerResult)
    requires db.Valid()
    modifies db
    ensures db.Valid()
    ensures var rejection := UploadThumbnailRejection(videoId, token, thumbnail, old(db.videos));
      rejection.Some? ==>
        && r == Threw(rejection.value)
        && db.videos == old(db.videos)
        && db.localFiles == old(db.localFiles)
        && db.remoteObjects == old(db.remoteObjects)
        && db.io == old(db.io)
    ensures UploadThumbnailRejection(videoId, token, thumbnail, old(db.videos)).None? ==>
      var id := videoId.value;
      var extension := if thumbnail.mediaType == "image/png" then "png" else "jpeg";
      var path := cfg.pathJoin(cfg.assetsRoot, randomName + "." + extension);
      var updated := old(db.videos)[id].(thumbnailURL := Some("http://localhost:" + cfg.port + "/" + path));
      && db.localFiles == old(db.localFiles) + {path}
      && db.io == old(db.io) + [LocalWrite(path)]
      && db.remoteObjects == old(db.remoteObjects)
      && db.videos == old(db.videos)[id := updated]
      && r == Returned(RespondWithJson(200, VideoJson(updated)))
  {
    if IdMissing(videoId) {
      return Threw(BadRequestError(InvalidVideoId));
    }
    var id := videoId.value;
    if token.TokenRejected? {
      return Threw(token.error);
    }
    var userID := token.userID;
    if !thumbnail.FileEntry? {
      return Threw(BadRequestError(InvalidFile));
    }
    if thumbnail.size > MaxUploadSize {
      return Threw(BadRequestError(FileTooLarge));
    }
    var mediaType := thumbnail.mediaType;
    if !AllowedType(mediaType) {
      return Threw(BadRequestError(InvalidFileType));
    }
    if id !in db.videos {
      return Threw(NotFoundError(VideoNotFound));
    }
    var video := db.videos[id];
    if video.userID != userID {
      return Threw(UserForbiddenError(NotOwner));
    }
    ThumbnailExtension(mediaType);
    var extension := MediaType.Extension(mediaType);
    var filePath := cfg.pathJoin(cfg.assetsRoot, randomName + "." + extension);
    db.WriteLocal(filePath);
    video := video.(thumbnailURL := Some("http://localhost:" + cfg.port + "/" + filePath));
    db.UpdateVideo(video);
    r := Returned(RespondWithJson(200, VideoJson(video)));
  }

  /** After an accepted upload, fetching the thumbnail returns the new URL. */
  lemma GetAfterUpload(videos: map<string, Video>, id: string, url: string)
    requires id != "" && id in videos
    ensures var r := GetThumbnail(videos[id := videos[id].(thumbnailURL := Some(url))], Some(id));
      r.Returned? && r.response.status == 200 && r.response.body == Text(url)
  {
  }
}
