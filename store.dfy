/** The state the handlers act on: the metadata store (`cfg.db`) as a map
    from video id to record, the files under the local assets root, the
    objects in the bucket, and a ghost log of the file operations in the
    order they were made. */
module Store {
  import opened Api

  /** One file operation, as recorded in `Storage.io`. */
  datatype FileEffect =
    | LocalWrite(path: string)
    | LocalDelete(path: string)
    | RemoteWrite(key: string, contentType: string)

  class Storage {
    var videos: map<string, Video>
    var localFiles: set<string>
    /** Bucket key to the content type it was written with. */
    var remoteObjects: map<string, string>
    ghost var io: seq<FileEffect>

    /** Every record is stored under its own id. */
    ghost predicate Valid()
      reads this
    {
      forall id :: id in videos ==> videos[id].id == id
    }

    constructor (videos: map<string, Video>)
      requires forall id :: id in videos ==> videos[id].id == id
      ensures Valid()
      ensures this.videos == videos && localFiles == {} && remoteObjects == map[] && io == []
    {
      this.videos := videos;
      localFiles := {};
      remoteObjects := map[];
      io := [];
    }

    /** `createVideo`: stores a new record under a fresh id, with no
        thumbnail and no video URL yet. */
    method CreateVideo(id: string, userID: string, title: string, description: string) returns (v: Video)
      requires Valid()
      requires id !in videos
      modifies this`videos
      ensures Valid()
      ensures v == Video(id, userID, title, description, None, None)
      ensures videos == old(videos)[id := v]
    {
      v := Video(id, userID, title, description, None, None);
      videos := videos[id := v];
    }

    /** `updateVideo`: replaces the record with the same id, if there is one. */
    method UpdateVideo(v: Video)
      requires Valid()
      modifies this`videos
      ensures Valid()
      ensures videos == if v.id in old(videos) then old(videos)[v.id := v] else old(videos)
    {
      if v.id in videos {
        videos := videos[v.id := v];
      }
    }

    /** `deleteVideo`: removes the record under `id`. */
    method DeleteVideo(id: string)
      requires Valid()
      modifies this`videos
      ensures Valid()
      ensures videos == old(videos) - {id}
    {
      videos := videos - {id};
    }

    /** `Bun.write(path, data)`. */
    method WriteLocal(path: string)
      modifies this`localFiles, this`io
      ensures localFiles == old(localFiles) + {path}
      ensures io == old(io) + [LocalWrite(path)]
    {
      localFiles := localFiles + {path};
      io := io + [LocalWrite(path)];
    }

    /** `Bun.file(path).delete()`. */
    method DeleteLocal(path: string)
      modifies this`localFiles, this`io
      ensures localFiles == old(localFiles) - {path}
      ensures io == old(io) + [LocalDelete(path)]
    {
      localFiles := localFiles - {path};
      io := io + [LocalDelete(path)];
    }

    /** `s3file.write(file, { type })` for the bucket object `key`. */
    method WriteRemote(key: string, contentType: string)
      modifies this`remoteObjects, this`io
      ensures remoteObjects == old(remoteObjects)[key := contentType]
      ensures io == old(io) + [RemoteWrite(key, contentType)]
    {
      remoteObjects := remoteObjects[key := contentType];
      io := io + [RemoteWrite(key, contentType)];
    }
  }
}
