/** The video-metadata handlers: create, delete, get one, and list the
    caller's videos, over the store's id-keyed map. */
module VideoMeta {
  import opened Api
  import opened Store

  const MissingFields := "Missing title or description"
  const InvalidVideoId := "Invalid video ID"
  const VideoNotFound := "Couldn't find video"
  const NotAuthorized := "Not authorized to delete this video"

  /** `!field` for a title or description read from the JSON body: absent or empty. */
  predicate Falsy(field: Option<string>)
  {
    field.None? || field.value == ""
  }

  /** `handlerVideoMetaCreate`. The token is checked first, then the title
      and description; only a request passing both adds a record, owned by
      the caller, with no thumbnail and no video URL, under the id `newId`
      the store generates. Files are never touched. */
  method VideoMetaCreate(db: Storage, token: Token, title: Option<string>, description: Option<string>,
                         newId: string) returns (r: HandlerResult)
    requires db.Valid()
    requires newId !in db.videos
    modifies db
    ensures db.Valid()
    ensures db.localFiles == old(db.localFiles) && db.remoteObjects == old(db.remoteObjects) && db.io == old(db.io)
    ensures token.TokenRejected? ==> r == Threw(token.error) && db.videos == old(db.videos)
    ensures token.Authenticated? && (Falsy(title) || Falsy(description)) ==>
      r == Threw(BadRequestError(MissingFields)) && db.videos == old(db.videos)
    ensures token.Authenticated? && !Falsy(title) && !Falsy(description) ==>
      var v := Video(newId, token.userID, title.value, description.value, None, None);
      && db.videos == old(db.videos)[newId := v]
      && r == Returned(RespondWithJson(201, VideoJson(v)))
  {
    if token.TokenRejected? {
      return Threw(token.error);
    }
    var userID := token.userID;
    if Falsy(title) || Falsy(description) {
      return Threw(BadRequestError(MissingFields));
    }
    var video := db.CreateVideo(newId, userID, title.value, description.value);
    r := Returned(RespondWithJson(201, VideoJson(video)));
  }

  /** The check chain of `handlerVideoMetaDelete`: the error it throws, or
      `None` when it deletes. The order is: video id, token, existence,
      ownership. */
  function VideoMetaDeleteRejection(videoId: Option<string>, token: Token, videos: map<string, Video>): (r: Option<Thrown>)
    ensures r.None? <==>
      && !IdMissing(videoId) && token.Authenticated?
      && videoId.value in videos && videos[videoId.value].userID == token.userID
    // The id is checked before the token is looked at.
    ensures IdMissing(videoId) ==> r == Some(BadRequestError(InvalidVideoId))
    ensures !IdMissing(videoId) && token.TokenRejected? ==> r == Some(token.error)
    // Past the token: NotFound exactly for an unknown id, Forbidden exactly
    // for someone else's video.
    ensures !IdMissing(videoId) && token.Authenticated? ==>
      (r == Some(NotFoundError(VideoNotFound)) <==> videoId.value !in videos)
    ensures !IdMissing(videoId) && token.Authenticated? && videoId.value in videos ==>
      (r == Some(UserForbiddenError(NotAuthorized)) <==> videos[videoId.value].userID != token.userID)
  {
    if IdMissing(videoId) then Some(BadRequestError(InvalidVideoId))
    else if token.TokenRejected? then Some(token.error)
    else if videoId.value !in videos then Some(NotFoundError(VideoNotFound))
    else if videos[videoId.value].userID != token.userID then Some(UserForbiddenError(NotAuthorized))
    else None
  }

  /** `handlerVideoMetaDelete`. A rejected request throws and changes
      nothing; an accepted one removes exactly the record `videoId`, keeps
      every other record, and answers 204 with no body. */
  method VideoMetaDelete(db: Storage, videoId: Option<string>, token: Token) returns (r: HandlerResult)
    requires db.Valid()
    modifies db
    ensures db.Valid()
    ensures db.localFiles == old(db.localFiles) && db.remoteObjects == old(db.remoteObjects) && db.io == old(db.io)
    ensures var rejection := VideoMetaDeleteRejection(videoId, token, old(db.videos));
      rejection.Some? ==> r == Threw(rejection.value) && db.videos == old(db.videos)
    ensures VideoMetaDeleteRejection(videoId, token, old(db.videos)).None? ==>
      && db.videos.Keys == old(db.videos).Keys - {videoId.value}
      && (forall id :: id in db.videos ==> db.videos[id] == old(db.videos)[id])
      && r == Returned(Response(204, "", map[], NoBody))
  {
    if IdMissing(videoId) {
      return Threw(BadRequestError(InvalidVideoId));
    }
    var id := videoId.value;
    if token.TokenRejected? {
      return Threw(token.error);
    }
    var userID := token.userID;
    if id !in db.videos {
      return Threw(NotFoundError(VideoNotFound));
    }
    if db.videos[id].userID != userID {
      return Threw(UserForbiddenError(NotAuthorized));
    }
    db.DeleteVideo(id);
    r := Returned(Response(204, "", map[], NoBody));
  }

  /** `handlerVideoGet`: the stored record as JSON. There is no token
      check. It reads the store and changes nothing. */
  function VideoGet(videos: map<string, Video>, videoId: Option<string>): (r: HandlerResult)
    ensures r.Returned? <==> !IdMissing(videoId) && videoId.value in videos
    ensures IdMissing(videoId) ==> r == Threw(BadRequestError(InvalidVideoId))
    ensures !IdMissing(videoId) && videoId.value !in videos ==> r == Threw(NotFoundError(VideoNotFound))
    ensures !IdMissing(videoId) && videoId.value in videos ==>
      r.response == RespondWithJson(200, VideoJson(videos[videoId.value]))
  {
    if IdMissing(videoId) then Threw(BadRequestError(InvalidVideoId))
    else if videoId.value !in videos then Threw(NotFoundError(VideoNotFound))
    else Returned(RespondWithJson(200, VideoJson(videos[videoId.value])))
  }

  /** `handlerVideosRetrieve`: the caller's videos, and only those, as JSON.
      It reads the store and changes nothing. */
  function VideosRetrieve(videos: map<string, Video>, token: Token): (r: HandlerResult)
    ensures token.TokenRejected? ==> r == Threw(token.error)
    ensures token.Authenticated? ==>
      && r.Returned? && r.response.body.VideoListJson?
      && r.response == RespondWithJson(200, VideoListJson(r.response.body.videos))
      && forall v :: v in r.response.body.videos <==> v in videos.Values && v.userID == token.userID
  {
    match token
    case TokenRejected(error) => Threw(error)
    case Authenticated(userID) =>
      Returned(RespondWithJson(200, VideoListJson(set v | v in videos.Values && v.userID == userID)))
  }

  /** A created record can be fetched back unchanged. */
  lemma GetAfterCreate(videos: map<string, Video>, v: Video)
    requires v.id != "" && v.id !in videos
    ensures VideoGet(videos[v.id := v], Some(v.id)) == Returned(RespondWithJson(200, VideoJson(v)))
  {
  }

  /** A created record appears in its owner's list. */
  lemma ListAfterCreate(videos: map<string, Video>, v: Video)
    ensures var r := VideosRetrieve(videos[v.id := v], Authenticated(v.userID));
      r.Returned? && v in r.response.body.videos
  {
    assert v in videos[v.id := v].Values by {
      assert videos[v.id := v][v.id] == v;
    }
  }

  /** After a delete, fetching the same id reports NotFound. */
  lemma GetAfterDelete(videos: map<string, Video>, id: string)
    requires id != ""
    ensures VideoGet(videos - {id}, Some(id)) == Threw(NotFoundError(VideoNotFound))
  {
  }
}
