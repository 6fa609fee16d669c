/** The background-video table and its route handlers: the public read and
    the admin create, update and delete of `app/api/background-videos/route.ts`,
    and the admin read of `app/api/admin/background-videos/route.ts`. */
module Videos {
  import opened Common

  /** A stored background video. */
  datatype Video = Video(
    id: string,
    title: string,
    videoUrl: string,
    description: Option<string>,
    opacity: real,
    order: int,
    isActive: bool)

  /** The fields the public read selects. */
  datatype VideoSummary = VideoSummary(id: string, videoUrl: string, opacity: real, order: int)

  /** The JSON body of the create request. */
  datatype NewVideoBody = NewVideoBody(
    title: Option<string>,
    videoUrl: Option<string>,
    description: Option<string>,
    opacity: Option<real>,
    order: Option<int>)

  /** The JSON body of the update request. Every field but `id` is optional;
      `description` may also be present and `null`, which clears it. */
  datatype VideoPatch = VideoPatch(
    id: Option<string>,
    title: Option<string>,
    videoUrl: Option<string>,
    description: Option<Option<string>>,
    opacity: Option<real>,
    order: Option<int>,
    isActive: Option<bool>)

  const DefaultOpacity: real := 0.15
  const DefaultOrder: int := 0

  function Order(v: Video): int { v.order }
  function SummaryOrder(s: VideoSummary): int { s.order }

  function Summary(v: Video): (s: VideoSummary)
    ensures s.id == v.id && s.videoUrl == v.videoUrl && s.opacity == v.opacity && s.order == v.order
  {
    VideoSummary(v.id, v.videoUrl, v.opacity, v.order)
  }

  /** The row the create request stores: active, with the default opacity
      and order when those are absent, and no description when the given
      one is absent or empty. */
  function NewVideo(id: string, body: NewVideoBody): (v: Video)
    requires Truthy(body.title) && Truthy(body.videoUrl)
    ensures v.id == id && v.title == body.title.value && v.videoUrl == body.videoUrl.value
    ensures v.isActive
    ensures v.description == (if Truthy(body.description) then body.description else None)
    ensures v.opacity == (if body.opacity.Some? then body.opacity.value else DefaultOpacity)
    ensures v.order == (if body.order.Some? then body.order.value else DefaultOrder)
  {
    Video(id, body.title.value, body.videoUrl.value,
          if Truthy(body.description) then body.description else None,
          if body.opacity.Some? then body.opacity.value else DefaultOpacity,
          if body.order.Some? then body.order.value else DefaultOrder,
          true)
  }

  /** A field of an update: the new value when present, else the old one. */
  function Pick<T>(present: Option<T>, old_value: T): T {
    if present.Some? then present.value else old_value
  }

  /** The row after an update: exactly the fields present in the body take
      their new values, every other field keeps its old one. */
  function Patched(v: Video, p: VideoPatch): (r: Video)
    ensures r.id == v.id
    ensures r.title == Pick(p.title, v.title) && r.videoUrl == Pick(p.videoUrl, v.videoUrl)
    ensures r.description == Pick(p.description, v.description)
    ensures r.opacity == Pick(p.opacity, v.opacity) && r.order == Pick(p.order, v.order)
    ensures r.isActive == Pick(p.isActive, v.isActive)
  {
    v.(title := Pick(p.title, v.title),
       videoUrl := Pick(p.videoUrl, v.videoUrl),
       description := Pick(p.description, v.description),
       opacity := Pick(p.opacity, v.opacity),
       order := Pick(p.order, v.order),
       isActive := Pick(p.isActive, v.isActive))
  }

  /** An update that names no field leaves the row as it was. */
  lemma EmptyPatchChangesNothing(v: Video, id: Option<string>)
    ensures Patched(v, VideoPatch(id, None, None, None, None, None, None)) == v
  {
  }

  /** Sending the same update twice is sending it once. */
  lemma PatchIdempotent(v: Video, p: VideoPatch)
    ensures Patched(Patched(v, p), p) == Patched(v, p)
  {
  }

  class VideoStore {
    var videos: map<string, Video>

    /** Every row is stored under its own id. */
    ghost predicate Valid()
      reads this
    {
      forall id :: id in videos ==> videos[id].id == id
    }

    constructor ()
      ensures Valid() && videos == map[]
    {
      videos := map[];
    }

    /** The ids of the active rows. */
    ghost function ActiveIds(): set<string>
      reads this
    {
      set id | id in videos && videos[id].isActive
    }

    /** Public GET: the active videos only, lowest order first, projected to
        id, videoUrl, opacity and order. A store failure answers with an
        empty list, not with an error status. */
    method ListActive(fault: bool) returns (list: seq<VideoSummary>)
      requires Valid()
      ensures fault ==> list == []
      ensures !fault ==> |list| == |ActiveIds()|
      ensures forall i :: 0 <= i < |list| ==>
        list[i].id in videos && videos[list[i].id].isActive && list[i] == Summary(videos[list[i].id])
      ensures !fault ==> forall id :: id in ActiveIds() ==> Summary(videos[id]) in list
      ensures SortedBy(list, SummaryOrder, Asc)
    {
      if fault {
        return [];
      }
      var active := map id | id in videos && videos[id].isActive :: videos[id];
      assert active.Keys == ActiveIds();
      var rows := Query(active, Order, Asc);
      list := seq(|rows|, i requires 0 <= i < |rows| => Summary(rows[i]));
      forall i | 0 <= i < |list|
        ensures list[i].id in videos && videos[list[i].id].isActive && list[i] == Summary(videos[list[i].id])
      {
        assert rows[i] in active.Values;
        var k :| k in active && active[k] == rows[i];
      }
      forall id | id in ActiveIds() ensures Summary(videos[id]) in list {
        assert active[id] in active.Values;
        var i :| 0 <= i < |rows| && rows[i] == active[id];
        assert list[i] == Summary(videos[id]);
      }
    }

    /** Admin GET: behind the admin gate, every video, active or not, lowest
        order first; a store failure gives 500. */
    method ListAll(isAdmin: bool, fault: bool) returns (reply: Reply<seq<Video>>)
      requires Valid()
      ensures !isAdmin ==> reply == Fail(401, Unauthorized)
      ensures isAdmin && fault ==> reply == Fail(500, "Failed to fetch videos")
      ensures isAdmin && !fault ==> reply.Ok?
      ensures reply.Ok? ==> |reply.payload| == |videos|
      ensures reply.Ok? ==> forall v :: v in reply.payload <==> v in videos.Values
      ensures reply.Ok? ==> SortedBy(reply.payload, Order, Asc)
    {
      if !isAdmin {
        return Fail(401, Unauthorized);
      }
      if fault {
        return Fail(500, "Failed to fetch videos");
      }
      var all := Query(videos, Order, Asc);
      reply := Ok(all);
    }

    /** Admin POST: stores one new active video. The gate comes first; a
        body that is not JSON (`json` is `None`) gives 500; a missing title
        or videoUrl gives 400; an id already in use or a store failure gives
        500. Only success changes the table, and every check passing means
        success. */
    method Create(isAdmin: bool, json: Option<NewVideoBody>, newId: string, fault: bool)
      returns (reply: Reply<Video>)
      requires Valid()
      modifies this
      ensures Valid()
      ensures !isAdmin ==> reply == Fail(401, Unauthorized)
      ensures isAdmin && json.None? ==> reply == Fail(500, "Failed to create video")
      ensures isAdmin && json.Some? && !(Truthy(json.value.title) && Truthy(json.value.videoUrl)) ==>
        reply == Fail(400, "Title and video URL required")
      ensures isAdmin && json.Some? && Truthy(json.value.title) && Truthy(json.value.videoUrl)
              && (fault || newId in old(videos)) ==>
        reply == Fail(500, "Failed to create video")
      ensures reply.Ok? <==> isAdmin && json.Some? && Truthy(json.value.title) && Truthy(json.value.videoUrl)
                             && !fault && newId !in old(videos)
      ensures reply.Fail? ==> videos == old(videos)
      ensures reply.Ok? ==>
        && reply.payload == NewVideo(newId, json.value)
        && videos == old(videos)[newId := reply.payload]
    {
      if !isAdmin {
        return Fail(401, Unauthorized);
      }
      if json.None? {
        return Fail(500, "Failed to create video");
      }
      var body := json.value;
      if !(Truthy(body.title) && Truthy(body.videoUrl)) {
        return Fail(400, "Title and video URL required");
      }
      if fault || newId in videos {
        return Fail(500, "Failed to create video");
      }
      var video := NewVideo(newId, body);
      videos := videos[newId := video];
      reply := Ok(video);
    }

    /** Admin PATCH: copies into the named video exactly the fields present
        in the body. The gate comes first; a body that is not JSON gives 500;
        a missing id gives 400; an unknown id or a store failure gives 500.
        No other video changes, and every check passing means success. */
    method Update(isAdmin: bool, json: Option<VideoPatch>, fault: bool) returns (reply: Reply<Video>)
      requires Valid()
      modifies this
      ensures Valid()
      ensures !isAdmin ==> reply == Fail(401, Unauthorized)
      ensures isAdmin && json.None? ==> reply == Fail(500, "Failed to update video")
      ensures isAdmin && json.Some? && !Truthy(json.value.id) ==> reply == Fail(400, "Video ID required")
      ensures isAdmin && json.Some? && Truthy(json.value.id) && (fault || json.value.id.value !in old(videos)) ==>
        reply == Fail(500, "Failed to update video")
      ensures reply.Ok? <==> isAdmin && json.Some? && Truthy(json.value.id) && !fault
                             && json.value.id.value in old(videos)
      ensures reply.Fail? ==> videos == old(videos)
      ensures reply.Ok? ==>
        var id := json.value.id.value;
        && reply.payload == Patched(old(videos)[id], json.value)
        && videos == old(videos)[id := reply.payload]
    {
      if !isAdmin {
        return Fail(401, Unauthorized);
      }
      if json.None? {
        return Fail(500, "Failed to update video");
      }
      var body := json.value;
      if !Truthy(body.id) {
        return Fail(400, "Video ID required");
      }
      var id := body.id.value;
      if fault || id !in videos {
        return Fail(500, "Failed to update video");
      }
      var video := videos[id];
      if body.title.Some? { video := video.(title := body.title.value); }
      if body.videoUrl.Some? { video := video.(videoUrl := body.videoUrl.value); }
      if body.description.Some? { video := video.(description := body.description.value); }
      if body.opacity.Some? { video := video.(opacity := body.opacity.value); }
      if body.order.Some? { video := video.(order := body.order.value); }
      if body.isActive.Some? { video := video.(isActive := body.isActive.value); }
      videos := videos[id := video];
      reply := Ok(video);
    }

    /** Admin DELETE: removes only the video named by the `id` query
        parameter. The gate comes first; a missing id gives 400; an unknown
        id or a store failure gives 500. */
    method Delete(isAdmin: bool, id: Option<string>, fault: bool) returns (reply: Reply<()>)
      requires Valid()
      modifies this
      ensures Valid()
      ensures !isAdmin ==> reply == Fail(401, Unauthorized)
      ensures isAdmin && !Truthy(id) ==> reply == Fail(400, "Video ID required")
      ensures isAdmin && Truthy(id) && (fault || id.value !in old(videos)) ==>
        reply == Fail(500, "Failed to delete video")
      ensures reply.Fail? ==> videos == old(videos)
      ensures reply.Ok? <==> isAdmin && Truthy(id) && !fault && id.value in old(videos)
      ensures reply.Ok? ==> videos == old(videos) - {id.value}
    {
      if !isAdmin {
        return Fail(401, Unauthorized);
      }
      if !Truthy(id) {
        return Fail(400, "Video ID required");
      }
      if fault || id.value !in videos {
        return Fail(500, "Failed to delete video");
      }
      videos := videos - {id.value};
      reply := Ok(());
    }
  }
}
