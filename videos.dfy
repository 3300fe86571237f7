/** The video upload handler: the file is written under the assets root,
    copied to the bucket, deleted locally, and the record's video URL set to
    the bucket object's public URL. */
module Videos {
  import opened Api
  import opened Store
  import MediaType

  /** `1 << 30` on 32-bit integers: one gibibyte. */
  const MaxUploadSize: int := ((1 as bv32) << 30) as int

  const InvalidVideoFile := "Invalid video file"
  const FileTooLarge := "max video file size"
  const PermissionDenied := "Permission denied"
  /** What the uuid package's `parse` throws (as a `TypeError`) on a
      malformed id. */
  const InvalidUuid := "Invalid UUID"

  /** The check chain of `handlerUploadVideo`: the error it throws, or `None`
      when it goes on to write the file. The order is: token, file part, size,
      media type, ownership. The id itself is not checked, and a missing
      record fails the ownership test (`video?.userID !== userId`). */
  function UploadVideoRejection(token: Token, video: FormEntry, videoId: string,
                                videos: map<string, Video>): (r: Option<Thrown>)
    // Accepted exactly when every check passes; a file of exactly the cap passes.
    ensures r.None? <==>
      && token.Authenticated?
      && video.FileEntry? && video.size <= 1073741824 && video.mediaType == "video/mp4"
      && videoId in videos && videos[videoId].userID == token.userID
    ensures token.TokenRejected? ==> r == Some(token.error)
    // The size is checked before the media type.
    ensures token.Authenticated? && video.FileEntry? && video.size > 1073741824 ==>
      r == Some(BadRequestError(FileTooLarge))
    // A missing record is refused as Forbidden, not NotFound.
    ensures (token.Authenticated? && video.FileEntry? && video.size <= 1073741824 && video.mediaType == "video/mp4"
             && videoId !in videos) ==> r == Some(UserForbiddenError(PermissionDenied))
    // Past the token, every rejection names its cause.
    ensures token.Authenticated? && r.Some? ==>
      || (r.value == BadRequestError(InvalidVideoFile) && (!video.FileEntry? || video.mediaType != "video/mp4"))
      || (r.value == BadRequestError(FileTooLarge) && video.FileEntry? && video.size > 1073741824)
      || (r.value == UserForbiddenError(PermissionDenied) && video.FileEntry? && video.mediaType == "video/mp4"
          && (videoId !in videos || videos[videoId].userID != token.userID))
  {
    if token.TokenRejected? then Some(token.error)
    else if !video.FileEntry? then Some(BadRequestError(InvalidVideoFile))
    else if video.size > MaxUploadSize then Some(BadRequestError(FileTooLarge))
    else if video.mediaType != "video/mp4" then Some(BadRequestError(InvalidVideoFile))
    else if videoId !in videos || videos[videoId].userID != token.userID then Some(UserForbiddenError(PermissionDenied))
    else None
  }

  /** The public URL of the object `key` in `bucket`, in AWS's
      virtual-hosted style. */
  function ObjectUrl(bucket: string, region: string, key: string): string
  {
    "https://" + bucket + ".s3." + region + ".amazonaws.com/" + key
  }

  /** The uploaded file's name: the video id with the media type's
      extension, so `<videoId>.mp4` for the one accepted type. */
  function UploadFileName(videoId: string, mediaType: string): (name: string)
    ensures mediaType == "video/mp4" ==> name == videoId + ".mp4"
  {
    MediaType.ExtensionOfMp4();
    assert videoId + "." + "mp4" == videoId + ("." + "mp4");
    videoId + "." + MediaType.Extension(mediaType)
  }

  /** The steps of `handlerUploadVideo` after its checks: write the file
      locally, parse the id, copy the file to the bucket, delete the local
      copy, and point the record at the bucket object. */
  method Publish(cfg: ApiConfig, db: Storage, videoId: string, fileName: string, idIsUuid: bool)
    returns (r: HandlerResult)
    requires db.Valid() && videoId in db.videos
    modifies db
    ensures db.Valid()
    ensures
      var path := cfg.pathJoin(cfg.assetsRoot, fileName);
      var updated := old(db.videos)[videoId].(videoURL := Some(ObjectUrl(cfg.s3Bucket, cfg.s3Region, fileName)));
      if idIsUuid then
        && db.io == old(db.io) + [LocalWrite(path), RemoteWrite(fileName, "video/mp4"), LocalDelete(path)]
        && db.localFiles == old(db.localFiles) - {path}
        && db.remoteObjects == old(db.remoteObjects)[fileName := "video/mp4"]
        && db.videos == old(db.videos)[videoId := updated]
        && r == Returned(RespondWithJson(200, VideoJson(updated)))
      else
        && db.io == old(db.io) + [LocalWrite(path)]
        && db.localFiles == old(db.localFiles) + {path}
        && db.remoteObjects == old(db.remoteObjects)
        && db.videos == old(db.videos)
        && r == Threw(OtherError(InvalidUuid))
  {
    var record := db.videos[videoId];
    var filePath := cfg.pathJoin(cfg.assetsRoot, fileName);
    db.WriteLocal(filePath);
    if !idIsUuid {
      return Threw(OtherError(InvalidUuid));
    }
    // the content type is `rawVideo.type`, which the checks fixed to video/mp4
    db.WriteRemote(fileName, "video/mp4");
    db.DeleteLocal(filePath);
    record := record.(videoURL := Some(ObjectUrl(cfg.s3Bucket, cfg.s3Region, fileName)));
    db.UpdateVideo(record);
    r := Returned(RespondWithJson(200, VideoJson(record)));
  }

  /** `handlerUploadVideo`. `idIsUuid` is the verdict of the uuid package's
      `parse` on the id, which runs after the local write.
      A rejected request throws and changes nothing. An accepted one writes
      `<videoId>.mp4` under the assets root, copies it to the bucket under
      the same name, deletes the local copy, and changes only the record's
      video URL, to the bucket object's public URL. If the id does not parse,
      the local file stays behind and nothing else changes. */
  method UploadVideo(cfg: ApiConfig, db: Storage, videoId: string, token: Token, video: FormEntry,
                     idIsUuid: bool) returns (r: HandlerResult)
    requires db.Valid()
    modifies db
    ensures db.Valid()
    ensures var rejection := UploadVideoRejection(token, video, videoId, old(db.videos));
      rejection.Some? ==>
        && r == Threw(rejection.value)
        && db.videos == old(db.videos)
        && db.localFiles == old(db.localFiles)
        && db.remoteObjects == old(db.remoteObjects)
        && db.io == old(db.io)
    ensures UploadVideoRejection(token, video, videoId, old(db.videos)).None? ==>
      var fileName := videoId + ".mp4";
      var path := cfg.pathJoin(cfg.assetsRoot, fileName);
      var url := ObjectUrl(cfg.s3Bucket, cfg.s3Region, fileName);
      var updated := old(db.videos)[videoId].(videoURL := Some(url));
      if idIsUuid then
        && db.io == old(db.io) + [LocalWrite(path), RemoteWrite(fileName, "video/mp4"), LocalDelete(path)]
        && db.localFiles == old(db.localFiles) - {path}
        && db.remoteObjects == old(db.remoteObjects)[fileName := "video/mp4"]
        && db.videos == old(db.videos)[videoId := updated]
        && r == Returned(RespondWithJson(200, VideoJson(updated)))
      else
        && db.io == old(db.io) + [LocalWrite(path)]
        && db.localFiles == old(db.localFiles) + {path}
        && db.remoteObjects == old(db.remoteObjects)
        && db.videos == old(db.videos)
        && r == Threw(OtherError(InvalidUuid))
  {
    ghost var rejection := UploadVideoRejection(token, video, videoId, db.videos);
    if token.TokenRejected? {
      return Threw(token.error);
    }
    var userID := token.userID;
    if !video.FileEntry? {
      return Threw(BadRequestError(InvalidVideoFile));
    }
    if video.size > MaxUploadSize {
      return Threw(BadRequestError(FileTooLarge));
    }
    if video.mediaType != "video/mp4" {
      return Threw(BadRequestError(InvalidVideoFile));
    }
    if videoId !in db.videos || db.videos[videoId].userID != userID {
      return Threw(UserForbiddenError(PermissionDenied));
    }
    assert rejection.None?;
    var fileName := UploadFileName(videoId, video.mediaType);
    r := Publish(cfg, db, videoId, fileName, idIsUuid);
  }
}
