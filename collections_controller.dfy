/**
 * The collection endpoints' handlers.  Each answers with JSON:API bodies:
 * `{data}` on success, `{meta: {message}}` for the relationship updates and
 * `{errors: [{title}]}` on failure.  The delete handler looks the
 * collection up first and refuses to delete one that still holds images.
 */
module CollectionsController {
  import opened Wrappers
  import opened Json
  import opened Http
  import opened World
  import CollectionDto
  import CollectionService
  import ImageService
  import ImageResize
  import ImagesController

  // ---------------------------------------------------------------------
  // Bodies
  // ---------------------------------------------------------------------

  function OptionalText(v: Option<string>): Json
  {
    if v.Some? then JStr(v.value) else JNull
  }

  function CollectionMembers(c: Collection): seq<Member>
  {
    [Member("uuid", JStr(c.uuid)), Member("name", JStr(c.name)), Member("description", OptionalText(c.description)),
     Member("createdAt", JNum(c.createdAt)), Member("updatedAt", JNum(c.updatedAt))]
  }

  /** A collection with its `imageCount`. */
  function ViewJson(v: CollectionService.CollectionView): (r: Json)
    ensures Get(r, "uuid") == Some(JStr(v.collection.uuid)) && Get(r, "imageCount") == Some(JNum(v.imageCount))
  {
    var ms := CollectionMembers(v.collection) + [Member("imageCount", JNum(v.imageCount))];
    assert ms[..1] == [ms[0]];
    JObj(ms)
  }

  function ViewsJson(vs: seq<CollectionService.CollectionView>): (r: seq<Json>)
    ensures |r| == |vs| && forall k :: 0 <= k < |vs| ==> r[k] == ViewJson(vs[k])
  {
    seq(|vs|, k requires 0 <= k < |vs| => ViewJson(vs[k]))
  }

  /** A collection page; `Math.ceil` of a division by zero is not finite
      and JSON.stringify writes it as null. */
  function PageJson(p: CollectionService.CollectionPage): Json
  {
    var images := seq(|p.images|, k requires 0 <= k < |p.images| => ImagesController.ViewJson(p.images[k]));
    var pagination := JObj([Member("page", JNum(p.page)), Member("limit", JNum(p.limit)),
                            Member("totalItems", JNum(p.totalItems)),
                            Member("totalPages", if p.totalPages.Some? then JNum(p.totalPages.value) else JNull)]);
    JObj(CollectionMembers(p.collection) + [Member("imageCount", JNum(p.imageCount)), Member("images", JArr(images)),
                                            Member("pagination", pagination)])
  }

  // ---------------------------------------------------------------------
  // getCollections / getCollectionById / createCollection / updateCollection
  // ---------------------------------------------------------------------

  const GetCollectionsFailure: string := "Failed to get collections"
  const CollectionNotFound: string := "Collection not found"
  const GetCollectionFailure: string := "Failed to get collection"
  const CreateFailure: string := "Failed to create collection"
  const UpdateFailure: string := "Failed to update collection"

  /** 200 with the list, or 500 when the `where` is one Prisma rejects. */
  function CollectionsResponse(r: Result<seq<CollectionService.CollectionView>, Thrown>): (resp: Response)
    ensures r.Ok? ==> resp == Response(200, DataBody(JArr(ViewsJson(r.value))))
    ensures r.Err? ==> resp == Response(500, TitledErrors(GetCollectionsFailure))
  {
    match r
    case Ok(vs) => Response(200, DataBody(JArr(ViewsJson(vs))))
    case Err(_) => Response(500, TitledErrors(GetCollectionsFailure))
  }

  /** The `filter` query value: a row predicate Prisma accepts, or the
      error it throws for a `where` it cannot read. */
  method GetCollections(w: World, filter: Result<Collection -> bool, Thrown>) returns (resp: Response)
    ensures filter.Ok? ==> resp == CollectionsResponse(Ok(CollectionService.Collections(w.Snapshot(), filter.value)))
    ensures filter.Err? ==> resp == Response(500, TitledErrors(GetCollectionsFailure))
  {
    if filter.Err? {
      return CollectionsResponse(Err(filter.error));
    }
    resp := CollectionsResponse(Ok(CollectionService.Collections(w.Snapshot(), filter.value)));
  }

  function CollectionByIdResponse(r: Result<Option<CollectionService.CollectionPage>, Thrown>): (resp: Response)
    ensures resp.status == 404 <==> r == Ok(None)
    ensures resp.status == 500 <==> r.Err?
    ensures r.Ok? && r.value.Some? ==> resp == Response(200, DataBody(PageJson(r.value.value)))
  {
    match r
    case Ok(None) => Response(404, TitledErrors(CollectionNotFound))
    case Ok(Some(p)) => Response(200, DataBody(PageJson(p)))
    case Err(_) => Response(500, TitledErrors(GetCollectionFailure))
  }

  /** The handler passes no query, so the page is the first ten images. */
  method GetCollectionById(w: World, uuid: string, chunkSize: ImageResize.ChunkSize) returns (resp: Response)
    ensures resp == CollectionByIdResponse(CollectionService.CollectionById(w.Snapshot(), uuid, None))
  {
    var r := CollectionService.GetCollectionById(w, uuid, None, chunkSize);
    resp := CollectionByIdResponse(r);
  }

  /** With the defaults the lookup cannot fail: an unknown uuid is 404 and a
      known one 200. */
  lemma CollectionByIdAnswers(s: State, uuid: string)
    ensures var resp := CollectionByIdResponse(CollectionService.CollectionById(s, uuid, None));
            && (resp.status == 404 <==> CollectionIndexOf(s.collections, uuid).None?)
            && (resp.status == 200 <==> CollectionIndexOf(s.collections, uuid).Some?)
  {
  }

  function CreateResponse(r: Result<CollectionService.CollectionView, Thrown>): (resp: Response)
    ensures r.Ok? <==> resp.status == 201
    ensures r.Ok? ==> resp.body == DataBody(ViewJson(r.value))
    ensures r.Err? ==> resp == Response(500, TitledErrors(CreateFailure))
  {
    match r
    case Ok(v) => Response(201, DataBody(ViewJson(v)))
    case Err(_) => Response(500, TitledErrors(CreateFailure))
  }

  method CreateCollection(w: World, dto: CollectionDto.CreateCollection, newUuid: string, now: int)
    returns (resp: Response)
    modifies w
    ensures var st := CollectionService.CreateCollectionStep(old(w.Snapshot()), dto, newUuid, now);
            w.Snapshot() == st.state && resp == CreateResponse(st.out)
  {
    var r := CollectionService.CreateCollection(w, dto, newUuid, now);
    resp := CreateResponse(r);
  }

  /** A fresh uuid is answered 201 with the new collection and a zero count. */
  lemma CreateAnswers(s: State, dto: CollectionDto.CreateCollection, newUuid: string, now: int)
    requires Linked(s) && CollectionIndexOf(s.collections, newUuid).None?
    ensures CreateResponse(CollectionService.CreateCollectionStep(s, dto, newUuid, now).out) ==
              Response(201, DataBody(ViewJson(CollectionService.CollectionView(
                Collection(newUuid, dto.name, dto.description, now, now), 0))))
  {
    CollectionService.CreateCollectionOutcome(s, dto, newUuid, now);
  }

  function CollectionJson(c: Collection): Json
  {
    JObj(CollectionMembers(c))
  }

  function UpdateResponse(r: Result<Collection, Thrown>): (resp: Response)
    ensures r.Ok? ==> resp == Response(200, DataBody(CollectionJson(r.value)))
    ensures r.Err? ==> resp == Response(500, TitledErrors(UpdateFailure))
  {
    match r
    case Ok(c) => Response(200, DataBody(CollectionJson(c)))
    case Err(_) => Response(500, TitledErrors(UpdateFailure))
  }

  method UpdateCollection(w: World, uuid: string, dto: CollectionDto.UpdateCollection, now: int)
    returns (resp: Response)
    modifies w
    ensures var st := CollectionService.UpdateCollectionStep(old(w.Snapshot()), uuid, dto, now);
            w.Snapshot() == st.state && resp == UpdateResponse(st.out)
  {
    var r := CollectionService.UpdateCollection(w, uuid, dto, now);
    resp := UpdateResponse(r);
  }

  /** Updating an unknown collection is answered 500, not 404. */
  lemma UpdateAnswers(s: State, uuid: string, dto: CollectionDto.UpdateCollection, now: int)
    requires Valid(s) && Linked(s)
    ensures UpdateResponse(CollectionService.UpdateCollectionStep(s, uuid, dto, now).out).status ==
              if CollectionIndexOf(s.collections, uuid).None? then 500 else 200
  {
    CollectionService.UpdateCollectionOutcome(s, uuid, dto, now);
  }

  // ---------------------------------------------------------------------
  // deleteCollection
  // ---------------------------------------------------------------------

  const NonEmptyTitle: string := "Cannot delete non-empty collection"
  const NonEmptyDetail: string := "Remove all images from the collection before deleting it"
  const CollectionDeleted: string := "Collection deleted successfully"
  const DeleteFailure: string := "Failed to delete collection"

  function NonEmptyBody(): Json
  {
    JObj([Member("errors", JArr([JObj([Member("title", JStr(NonEmptyTitle)), Member("detail", JStr(NonEmptyDetail))])]))])
  }

  /** The handler as a step: look the collection up (defaults), answer 409
      for a positive count, and otherwise delete and answer 200, or 500 when
      a call throws. */
  function DeleteCollectionRoute(s: State, uuid: string): Step<Response>
  {
    match CollectionService.CollectionById(s, uuid, None)
    case Err(_) => Step(s, Response(500, TitledErrors(DeleteFailure)))
    case Ok(found) =>
      if found.Some? && found.value.imageCount > 0 then Step(s, Response(409, NonEmptyBody()))
      else
        var st := CollectionService.DeleteCollectionStep(s, uuid);
        Step(st.state, if st.out.Ok? then Response(200, MetaMessage(CollectionDeleted))
                       else Response(500, TitledErrors(DeleteFailure)))
  }

  method DeleteCollection(w: World, uuid: string, chunkSize: ImageResize.ChunkSize) returns (resp: Response)
    modifies w
    ensures Step(w.Snapshot(), resp) == DeleteCollectionRoute(old(w.Snapshot()), uuid)
  {
    var found := CollectionService.GetCollectionById(w, uuid, None, chunkSize);
    if found.Err? {
      return Response(500, TitledErrors(DeleteFailure));
    }
    if found.value.Some? && found.value.value.imageCount > 0 {
      return Response(409, NonEmptyBody());
    }
    var r := CollectionService.DeleteCollection(w, uuid);
    resp := if r.Ok? then Response(200, MetaMessage(CollectionDeleted)) else Response(500, TitledErrors(DeleteFailure));
  }

  /** An empty collection releases no image. */
  lemma ReleaseNothing(rs: seq<ImageRecord>, cid: string)
    requires CollectionService.ImageCount(rs, cid) == 0
    ensures CollectionService.Released(rs, cid) == rs
  {
    var r := CollectionService.Released(rs, cid);
    assert forall k :: 0 <= k < |rs| ==> r[k] == rs[k];
  }

  /** A collection that holds images is refused with 409 and nothing
      changes; an empty one is deleted with 200; an unknown uuid is 500 and
      nothing changes.  The image table is never touched. */
  lemma DeleteCollectionAnswers(s: State, uuid: string)
    requires Valid(s) && Linked(s)
    ensures var st := DeleteCollectionRoute(s, uuid);
            var n := CollectionService.ImageCount(s.records, uuid);
            && st.state.records == s.records
            && (CollectionIndexOf(s.collections, uuid).None? ==>
                  st.state == s && st.out == Response(500, TitledErrors(DeleteFailure)))
            && (CollectionIndexOf(s.collections, uuid).Some? && n > 0 ==>
                  st.state == s && st.out == Response(409, NonEmptyBody()))
            && (CollectionIndexOf(s.collections, uuid).Some? && n == 0 ==>
                  && st.out == Response(200, MetaMessage(CollectionDeleted))
                  && CollectionIndexOf(st.state.collections, uuid).None?
                  && |st.state.collections| == |s.collections| - 1)
            && Valid(st.state) && Linked(st.state)
  {
    CollectionService.DeleteCollectionOutcome(s, uuid);
    if CollectionService.ImageCount(s.records, uuid) == 0 {
      ReleaseNothing(s.records, uuid);
    }
  }

  // ---------------------------------------------------------------------
  // addToCollection / deleteFromCollection
  // ---------------------------------------------------------------------

  const ImagesAdded: string := "Images added to collection"
  const AddFailure: string := "Failed to update relationship"
  const ImageRemoved: string := "Image removed from collection"

  function AddResponse(r: Result<seq<ImageRecord>, Thrown>): (resp: Response)
    ensures r.Ok? <==> resp == Response(200, MetaMessage(ImagesAdded))
    ensures r.Err? <==> resp == Response(500, TitledErrors(AddFailure))
  {
    if r.Ok? then Response(200, MetaMessage(ImagesAdded)) else Response(500, TitledErrors(AddFailure))
  }

  method AddToCollection(w: World, uuid: string, ids: seq<string>) returns (resp: Response)
    modifies w
    ensures var st := CollectionService.AddLinksStep(old(w.Snapshot()), uuid, ids);
            w.Snapshot() == st.state && resp == AddResponse(st.out)
  {
    var r := CollectionService.AddImagesToCollection(w, uuid, ids);
    resp := AddResponse(r);
  }

  /** 200 exactly when the collection exists and every id names an image;
      a 500 does not undo the links that were made: every listed image that
      exists is in the collection afterwards whatever the answer. */
  lemma AddAnswers(s: State, uuid: string, ids: seq<string>, k: nat)
    requires Valid(s) && k < |s.records| && s.records[k].uuid in ids && CollectionIndexOf(s.collections, uuid).Some?
    ensures var st := CollectionService.AddLinksStep(s, uuid, ids);
            && (st.out.Ok? <==> forall j :: 0 <= j < |ids| ==> IndexOf(s.records, ids[j]).Some?)
            && AddResponse(st.out).status == (if st.out.Ok? then 200 else 500)
            && |st.state.records| == |s.records|
            && st.state.records[k] == s.records[k].(collectionId := Some(uuid))
  {
    CollectionService.AddLinksOk(s, uuid, ids);
    CollectionService.AddLinksState(s, uuid, ids);
  }

  /** The route declares `/:uuid/relationships/images`. */
  function RouteParams(uuid: string): map<string, string>
  {
    map["uuid" := uuid]
  }

  /** `req.params.id`: undefined when the route has no `:id`. */
  function ParamId(params: map<string, string>): (r: Option<string>)
    ensures r.Some? <==> "id" in params
  {
    if "id" in params then Some(params["id"]) else None
  }

  /** deleteFromCollection as written: the collection id it passes on is
      `req.params.id`, which this route never binds, so the `where` keeps
      only the uuid filter. */
  method DeleteFromCollection(w: World, uuid: string, ids: seq<string>) returns (resp: Response)
    modifies w
    ensures w.Snapshot() == old(w.Snapshot()).(records := CollectionService.Unlinked(old(w.records), ParamId(RouteParams(uuid)), ids))
    ensures resp == Response(200, MetaMessage(ImageRemoved))
  {
    var count := CollectionService.RemoveImageFromCollection(w, ParamId(RouteParams(uuid)), ids);
    resp := Response(200, MetaMessage(ImageRemoved));
  }

  /** As written, asking collection `a` to let go of an image unlinks it
      from collection `b` that holds it. */
  lemma UnlinksForeignImage(rs: seq<ImageRecord>, a: string, b: string, ids: seq<string>, k: nat)
    requires k < |rs| && rs[k].collectionId == Some(b) && a != b && rs[k].uuid in ids
    ensures CollectionService.Unlinked(rs, ParamId(RouteParams(a)), ids)[k].collectionId.None?
  {
    assert ParamId(RouteParams(a)) == None;
  }

  /** The handler reading the route's own `uuid`. */
  method DeleteFromCollectionCorrected(w: World, uuid: string, ids: seq<string>) returns (resp: Response)
    modifies w
    ensures w.Snapshot() == old(w.Snapshot()).(records := CollectionService.Unlinked(old(w.records), Some(uuid), ids))
    ensures resp == Response(200, MetaMessage(ImageRemoved))
  {
    var params := RouteParams(uuid);
    var count := CollectionService.RemoveImageFromCollection(w, Some(params["uuid"]), ids);
    resp := Response(200, MetaMessage(ImageRemoved));
  }

  /** With the route's uuid, a row leaves collection `a` exactly when it is
      listed and in `a`; rows of other collections keep their link. */
  lemma CorrectedUnlinksOnlyOwn(rs: seq<ImageRecord>, a: string, ids: seq<string>, k: nat)
    requires k < |rs|
    ensures var r := CollectionService.Unlinked(rs, Some(a), ids)[k];
            && (rs[k].collectionId != Some(a) ==> r == rs[k])
            && (rs[k].collectionId == Some(a) ==> (r.collectionId.None? <==> rs[k].uuid in ids))
  {
  }
}
