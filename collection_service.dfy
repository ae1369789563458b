/**
 * The collection service: the collection table with the number of images
 * linked to each collection, the page of a collection's images, and the
 * two relationship updates that link images to a collection and unlink
 * them.
 */
module CollectionService {
  import opened Wrappers
  import opened Bytes
  import opened World
  import opened ImageDto
  import CollectionDto
  import ImageService
  import ImageResize

  /** A collection with `imageCount`, the `_count.images` Prisma includes. */
  datatype CollectionView = CollectionView(collection: Collection, imageCount: nat)

  /** What getCollectionById answers: the collection, its count, one page of
      its images and the pagination block.  `totalPages` is None where
      `Math.ceil(count / 0)` is not a finite number; it is negative for a
      negative limit. */
  datatype CollectionPage = CollectionPage(
    collection: Collection,
    imageCount: nat,
    images: seq<ImageService.ImageView>,
    page: int,
    limit: int,
    totalItems: nat,
    totalPages: Option<int>)

  /** The optional `imageQuery` argument; a None field is absent.  Images
      are ordered by createdAt, the default and only sort key modelled. */
  datatype ImagesQueryInput = ImagesQueryInput(page: Option<int>, limit: Option<int>,
                                               sort: Option<SortOrder>, search: Option<string>)

  /** The query after the `??` defaults. */
  datatype PageQuery = PageQuery(page: int, limit: int, sort: SortOrder, search: string)

  const DefaultSearch: string := ""

  // ---------------------------------------------------------------------
  // imageCount
  // ---------------------------------------------------------------------

  /** The number of rows whose `collectionId` is `cid`. */
  function ImageCount(rs: seq<ImageRecord>, cid: string): (n: nat)
    ensures n <= |rs|
    ensures n == 0 <==> forall k :: 0 <= k < |rs| ==> rs[k].collectionId != Some(cid)
  {
    if rs == [] then 0
    else
      assert forall k :: 1 <= k < |rs| ==> rs[k] == rs[1..][k - 1];
      (if rs[0].collectionId == Some(cid) then 1 else 0) + ImageCount(rs[1..], cid)
  }

  /** The rows of collection `cid` matching the search, in table order. */
  function Listed(rs: seq<ImageRecord>, cid: string, search: Option<string>): (r: seq<ImageRecord>)
    ensures forall k :: 0 <= k < |r| ==> r[k] in rs && r[k].collectionId == Some(cid) && ImageService.Matches(r[k], search)
    ensures forall k :: 0 <= k < |rs| && rs[k].collectionId == Some(cid) && ImageService.Matches(rs[k], search) ==> rs[k] in r
    ensures |r| <= |rs|
  {
    if rs == [] then []
    else
      var rest := Listed(rs[1..], cid, search);
      assert forall k :: 1 <= k < |rs| ==> rs[k] == rs[1..][k - 1];
      if rs[0].collectionId == Some(cid) && ImageService.Matches(rs[0], search) then [rs[0]] + rest else rest
  }

  /** The count Prisma reports is the number of rows the collection lists
      when no search narrows it. */
  lemma {:induction false} ImageCountListed(rs: seq<ImageRecord>, cid: string)
    ensures ImageCount(rs, cid) == |Listed(rs, cid, None)|
    decreases |rs|
  {
    if rs != [] {
      ImageCountListed(rs[1..], cid);
    }
  }

  function View(rs: seq<ImageRecord>, c: Collection): (v: CollectionView)
    ensures v.collection == c && v.imageCount == ImageCount(rs, c.uuid)
  {
    CollectionView(c, ImageCount(rs, c.uuid))
  }

  // ---------------------------------------------------------------------
  // getCollections / createCollection
  // ---------------------------------------------------------------------

  /** The rows of `cs` that `keep` accepts, in order, each with its count. */
  function CollectionsOf(rs: seq<ImageRecord>, cs: seq<Collection>, keep: Collection -> bool): (r: seq<CollectionView>)
    ensures |r| <= |cs|
    ensures forall k :: 0 <= k < |r| ==>
              r[k].collection in cs && keep(r[k].collection) && r[k].imageCount == ImageCount(rs, r[k].collection.uuid)
    ensures forall k :: 0 <= k < |cs| && keep(cs[k]) ==> View(rs, cs[k]) in r
  {
    if cs == [] then []
    else
      var rest := CollectionsOf(rs, cs[1..], keep);
      assert forall k :: 1 <= k < |cs| ==> cs[k] == cs[1..][k - 1];
      if keep(cs[0]) then [View(rs, cs[0])] + rest else rest
  }

  /** getCollections: the rows `where: filter` keeps, the filter being any
      predicate on rows, each reported with the number of images it holds. */
  function Collections(s: State, keep: Collection -> bool): (r: seq<CollectionView>)
    ensures forall k :: 0 <= k < |r| ==>
              r[k].collection in s.collections && keep(r[k].collection)
              && r[k].imageCount == ImageCount(s.records, r[k].collection.uuid)
    ensures forall k :: 0 <= k < |s.collections| && keep(s.collections[k]) ==> View(s.records, s.collections[k]) in r
  {
    CollectionsOf(s.records, s.collections, keep)
  }

  /** createCollection: a row under the fresh uuid, created and updated now. */
  function CreateCollectionStep(s: State, dto: CollectionDto.CreateCollection, newUuid: string, now: int)
    : Step<Result<CollectionView, Thrown>>
  {
    if CollectionIndexOf(s.collections, newUuid).Some? then Step(s, Err(UniqueViolation))
    else
      var c := Collection(newUuid, dto.name, dto.description, now, now);
      Step(s.(collections := s.collections + [c]), Ok(View(s.records, c)))
  }

  method CreateCollection(w: World, dto: CollectionDto.CreateCollection, newUuid: string, now: int)
    returns (r: Result<CollectionView, Thrown>)
    modifies w
    ensures Step(w.Snapshot(), r) == CreateCollectionStep(old(w.Snapshot()), dto, newUuid, now)
  {
    if CollectionIndexOf(w.collections, newUuid).Some? {
      return Err(UniqueViolation);
    }
    var c := Collection(newUuid, dto.name, dto.description, now, now);
    r := Ok(View(w.records, c));
    w.collections := w.collections + [c];
  }

  /** A new collection holds no image while every link names an existing
      collection; a taken uuid changes nothing. */
  lemma CreateCollectionOutcome(s: State, dto: CollectionDto.CreateCollection, newUuid: string, now: int)
    requires Linked(s)
    ensures var st := CreateCollectionStep(s, dto, newUuid, now);
            && (st.out.Err? <==> CollectionIndexOf(s.collections, newUuid).Some?)
            && (st.out.Err? ==> st.state == s && st.out.error == UniqueViolation)
            && (st.out.Ok? ==>
                  && st.out.value == CollectionView(Collection(newUuid, dto.name, dto.description, now, now), 0)
                  && st.state == s.(collections := s.collections + [st.out.value.collection])
                  && (Valid(s) ==> Valid(st.state) && Linked(st.state)))
  {
    var st := CreateCollectionStep(s, dto, newUuid, now);
    if st.out.Ok? {
      assert forall k :: 0 <= k < |s.records| ==> s.records[k].collectionId != Some(newUuid);
      CollectionIndexOfAppend(s.collections, st.out.value.collection);
    }
  }

  /** Appending a row keeps every earlier row findable. */
  lemma {:induction false} CollectionIndexOfAppend(cs: seq<Collection>, c: Collection)
    ensures forall u :: CollectionIndexOf(cs, u).Some? ==> CollectionIndexOf(cs + [c], u).Some?
  {
    forall u | CollectionIndexOf(cs, u).Some? ensures CollectionIndexOf(cs + [c], u).Some? {
      var i := CollectionIndexOf(cs, u).value;
      Found(cs + [c], u, i);
    }
  }

  /** A row holding the uuid makes the lookup succeed. */
  lemma Found(cs: seq<Collection>, u: string, i: nat)
    requires i < |cs| && cs[i].uuid == u
    ensures CollectionIndexOf(cs, u).Some?
  {
  }

  // ---------------------------------------------------------------------
  // updateCollection / deleteCollection
  // ---------------------------------------------------------------------

  /** The row after `update`: an absent field keeps its value (Prisma skips
      `undefined`), and updatedAt is now. */
  function Updated(c: Collection, dto: CollectionDto.UpdateCollection, now: int): (r: Collection)
    ensures r.uuid == c.uuid && r.createdAt == c.createdAt && r.updatedAt == now
    ensures r.name == (if dto.name.Some? then dto.name.value else c.name)
    ensures r.description == (if dto.description.Some? then dto.description else c.description)
  {
    Collection(c.uuid,
               if dto.name.Some? then dto.name.value else c.name,
               if dto.description.Some? then dto.description else c.description,
               c.createdAt, now)
  }

  function UpdateCollectionStep(s: State, uuid: string, dto: CollectionDto.UpdateCollection, now: int)
    : Step<Result<Collection, Thrown>>
  {
    match CollectionIndexOf(s.collections, uuid)
    case None => Step(s, Err(RecordNotFound))
    case Some(i) =>
      var c := Updated(s.collections[i], dto, now);
      Step(s.(collections := s.collections[i := c]), Ok(c))
  }

  method UpdateCollection(w: World, uuid: string, dto: CollectionDto.UpdateCollection, now: int)
    returns (r: Result<Collection, Thrown>)
    modifies w
    ensures Step(w.Snapshot(), r) == UpdateCollectionStep(old(w.Snapshot()), uuid, dto, now)
  {
    var i := CollectionIndexOf(w.collections, uuid);
    if i.None? {
      return Err(RecordNotFound);
    }
    var c := Updated(w.collections[i.value], dto, now);
    w.collections := w.collections[i.value := c];
    r := Ok(c);
  }

  /** deleteCollection: the row goes, and the images it held are unlinked
      (the `SetNull` default of an optional relation). */
  function DeleteCollectionStep(s: State, uuid: string): Step<Result<Collection, Thrown>>
  {
    match CollectionIndexOf(s.collections, uuid)
    case None => Step(s, Err(RecordNotFound))
    case Some(i) =>
      Step(s.(collections := RemoveAt(s.collections, i), records := Released(s.records, uuid)),
           Ok(s.collections[i]))
  }

  /** The rows of collection `cid` with their link cleared. */
  function Released(rs: seq<ImageRecord>, cid: string): (r: seq<ImageRecord>)
    ensures SameUuids(r, rs)
    ensures forall k :: 0 <= k < |rs| ==> r[k] == if rs[k].collectionId == Some(cid) then rs[k].(collectionId := None) else rs[k]
  {
    seq(|rs|, k requires 0 <= k < |rs| => if rs[k].collectionId == Some(cid) then rs[k].(collectionId := None) else rs[k])
  }

  method DeleteCollection(w: World, uuid: string) returns (r: Result<Collection, Thrown>)
    modifies w
    ensures Step(w.Snapshot(), r) == DeleteCollectionStep(old(w.Snapshot()), uuid)
  {
    var i := CollectionIndexOf(w.collections, uuid);
    if i.None? {
      return Err(RecordNotFound);
    }
    r := Ok(w.collections[i.value]);
    w.collections := RemoveAt(w.collections, i.value);
    w.records := Released(w.records, uuid);
  }

  /** updateCollection keeps the uuid and creation time, changes only the
      fields present, and keeps the tables' invariants. */
  lemma UpdateCollectionOutcome(s: State, uuid: string, dto: CollectionDto.UpdateCollection, now: int)
    requires Valid(s) && Linked(s)
    ensures var st := UpdateCollectionStep(s, uuid, dto, now);
            && (st.out.Err? <==> CollectionIndexOf(s.collections, uuid).None?)
            && (st.out.Err? ==> st.state == s && st.out.error == RecordNotFound)
            && (st.out.Ok? ==> && st.out.value == Updated(s.collections[CollectionIndexOf(s.collections, uuid).value], dto, now)
                               && st.state.records == s.records && |st.state.collections| == |s.collections|)
            && Valid(st.state) && Linked(st.state)
  {
    var st := UpdateCollectionStep(s, uuid, dto, now);
    if st.out.Ok? {
      var cs := st.state.collections;
      assert forall k :: 0 <= k < |cs| ==> cs[k].uuid == s.collections[k].uuid;
      forall k | 0 <= k < |s.records| && s.records[k].collectionId.Some?
        ensures CollectionIndexOf(cs, s.records[k].collectionId.value).Some?
      {
        var c := s.records[k].collectionId.value;
        Found(cs, c, CollectionIndexOf(s.collections, c).value);
      }
    }
  }

  /** deleteCollection on a missing uuid is P2025 and changes nothing;
      otherwise the row goes, its images are released, and no link is left
      pointing at a missing collection. */
  lemma DeleteCollectionOutcome(s: State, uuid: string)
    requires Valid(s) && Linked(s)
    ensures var st := DeleteCollectionStep(s, uuid);
            && (st.out.Err? <==> CollectionIndexOf(s.collections, uuid).None?)
            && (st.out.Err? ==> st.state == s && st.out.error == RecordNotFound)
            && (st.out.Ok? ==> && st.out.value.uuid == uuid
                               && CollectionIndexOf(st.state.collections, uuid).None?
                               && ImageCount(st.state.records, uuid) == 0)
            && Valid(st.state) && Linked(st.state)
  {
    var st := DeleteCollectionStep(s, uuid);
    if st.out.Ok? {
      var i := CollectionIndexOf(s.collections, uuid).value;
      var cs := st.state.collections;
      var rs := st.state.records;
      forall k | 0 <= k < |rs| && rs[k].collectionId.Some?
        ensures CollectionIndexOf(cs, rs[k].collectionId.value).Some?
      {
        var c := rs[k].collectionId.value;
        var j := CollectionIndexOf(s.collections, c).value;
        assert j != i;
        if j < i { Found(cs, c, j); } else { Found(cs, c, j - 1); }
      }
    }
  }

  // ---------------------------------------------------------------------
  // addImagesToCollection
  // ---------------------------------------------------------------------

  /** One `thumbnailImage.update`: a missing image is P2025, a missing
      collection P2003, otherwise the row is linked. */
  function LinkOne(s: State, cid: string, id: string): Step<Result<ImageRecord, Thrown>>
  {
    match IndexOf(s.records, id)
    case None => Step(s, Err(RecordNotFound))
    case Some(i) =>
      if CollectionIndexOf(s.collections, cid).None? then Step(s, Err(ForeignKeyViolation))
      else
        var rec := s.records[i].(collectionId := Some(cid));
        Step(s.(records := s.records[i := rec]), Ok(rec))
  }

  /** `Promise.all` over the updates, one after the other: every update
      runs, and the first failure is what the call rejects with. */
  function AddLinksStep(s: State, cid: string, ids: seq<string>): Step<Result<seq<ImageRecord>, Thrown>>
    decreases |ids|
  {
    if ids == [] then Step(s, Ok([]))
    else
      var p := AddLinksStep(s, cid, ids[..|ids| - 1]);
      var one := LinkOne(p.state, cid, ids[|ids| - 1]);
      Step(one.state, Collect(p.out, one.out))
  }

  /** Results gathered in order; the earlier failure wins. */
  function Collect(acc: Result<seq<ImageRecord>, Thrown>, one: Result<ImageRecord, Thrown>): Result<seq<ImageRecord>, Thrown>
  {
    match acc
    case Err(e) => Err(e)
    case Ok(rows) => match one { case Err(e) => Err(e) case Ok(r) => Ok(rows + [r]) }
  }

  method AddImagesToCollection(w: World, cid: string, ids: seq<string>)
    returns (r: Result<seq<ImageRecord>, Thrown>)
    modifies w
    ensures Step(w.Snapshot(), r) == AddLinksStep(old(w.Snapshot()), cid, ids)
  {
    r := Ok([]);
    var n := 0;
    while n < |ids|
      invariant 0 <= n <= |ids|
      invariant Step(w.Snapshot(), r) == AddLinksStep(old(w.Snapshot()), cid, ids[..n])
    {
      assert ids[..n + 1][..n] == ids[..n];
      var one: Result<ImageRecord, Thrown>;
      var i := IndexOf(w.records, ids[n]);
      if i.None? {
        one := Err(RecordNotFound);
      } else if CollectionIndexOf(w.collections, cid).None? {
        one := Err(ForeignKeyViolation);
      } else {
        var rec := w.records[i.value].(collectionId := Some(cid));
        w.records := w.records[i.value := rec];
        one := Ok(rec);
      }
      r := Collect(r, one);
      n := n + 1;
    }
    assert ids[..n] == ids;
  }

  /** The table after linking: a listed row joins the collection when the
      collection exists; every other row is as it was. */
  function Relinked(rs: seq<ImageRecord>, cid: string, ids: seq<string>, present: bool): (r: seq<ImageRecord>)
    ensures SameUuids(r, rs)
  {
    seq(|rs|, k requires 0 <= k < |rs| => if present && rs[k].uuid in ids then rs[k].(collectionId := Some(cid)) else rs[k])
  }

  /** The stores after addImagesToCollection, in closed form: only the
      `collectionId` of listed rows changes, and only when the collection
      exists, whichever updates fail. */
  lemma {:induction false} AddLinksState(s: State, cid: string, ids: seq<string>)
    requires UniqueImages(s.records)
    ensures AddLinksStep(s, cid, ids).state ==
              s.(records := Relinked(s.records, cid, ids, CollectionIndexOf(s.collections, cid).Some?))
    decreases |ids|
  {
    if ids != [] {
      var ex := CollectionIndexOf(s.collections, cid).Some?;
      var front, id := ids[..|ids| - 1], ids[|ids| - 1];
      AddLinksState(s, cid, front);
      var before := Relinked(s.records, cid, front, ex);
      IndexOfSameUuids(before, s.records, id);
      LinkOneRelinks(s.records, cid, front, id, ex);
    }
  }

  /** Linking one more id extends the closed form by that id. */
  lemma LinkOneRelinks(rs: seq<ImageRecord>, cid: string, front: seq<string>, id: string, ex: bool)
    requires UniqueImages(rs)
    ensures var before := Relinked(rs, cid, front, ex);
            var after := Relinked(rs, cid, front + [id], ex);
            && (IndexOf(rs, id).None? || !ex ==> after == before)
            && (IndexOf(rs, id).Some? && ex ==>
                  after == before[IndexOf(rs, id).value := before[IndexOf(rs, id).value].(collectionId := Some(cid))])
  {
    var before := Relinked(rs, cid, front, ex);
    var after := Relinked(rs, cid, front + [id], ex);
    match IndexOf(rs, id)
    case None =>
      forall k | 0 <= k < |rs| ensures after[k] == before[k] {
        assert rs[k].uuid in front + [id] <==> rs[k].uuid in front;
      }
    case Some(i) =>
      if ex {
        var upd := before[i := before[i].(collectionId := Some(cid))];
        forall k | 0 <= k < |rs| ensures after[k] == upd[k] {
          assert rs[k].uuid in front + [id] <==> rs[k].uuid in front || rs[k].uuid == id;
          if k != i { assert rs[k].uuid != rs[i].uuid; }
        }
      }
  }

  /** The updates touch neither the collection table nor any uuid. */
  lemma {:induction false} AddLinksFrame(s: State, cid: string, ids: seq<string>)
    ensures var t := AddLinksStep(s, cid, ids).state;
            t.collections == s.collections && SameUuids(t.records, s.records)
            && t.uploads == s.uploads && t.completed == s.completed
            && t.tasks == s.tasks && t.completions == s.completions
    decreases |ids|
  {
    if ids != [] {
      AddLinksFrame(s, cid, ids[..|ids| - 1]);
    }
  }

  /** One update on a table with the same uuids and collections as `s`
      answers as it would on `s`. */
  lemma LinkOneOutcome(s: State, t: State, cid: string, id: string)
    requires t.collections == s.collections && SameUuids(t.records, s.records)
    ensures var r := LinkOne(t, cid, id).out;
            var ex := CollectionIndexOf(s.collections, cid).Some?;
            && (r.Ok? <==> ex && IndexOf(s.records, id).Some?)
            && (r.Ok? ==> r.value.uuid == id && r.value.collectionId == Some(cid))
            && (r.Err? ==> r.error == if IndexOf(s.records, id).None? then RecordNotFound else ForeignKeyViolation)
  {
    IndexOfSameUuids(t.records, s.records, id);
  }

  /** addImagesToCollection resolves exactly when the collection exists and
      every id names an image. */
  lemma {:induction false} AddLinksOk(s: State, cid: string, ids: seq<string>)
    ensures AddLinksStep(s, cid, ids).out.Ok? <==>
              forall j :: 0 <= j < |ids| ==> CollectionIndexOf(s.collections, cid).Some? && IndexOf(s.records, ids[j]).Some?
    decreases |ids|
  {
    if ids != [] {
      var front, last := ids[..|ids| - 1], ids[|ids| - 1];
      var p := AddLinksStep(s, cid, front);
      var one := LinkOne(p.state, cid, last);
      assert AddLinksStep(s, cid, ids).out.Ok? <==> p.out.Ok? && one.out.Ok?;
      AddLinksOk(s, cid, front);
      AddLinksFrame(s, cid, front);
      LinkOneOutcome(s, p.state, cid, last);
      assert forall j :: 0 <= j < |front| ==> front[j] == ids[j];
    }
  }

  /** When it resolves, it answers one updated row per id, in order, each
      now in the collection. */
  lemma {:induction false} AddLinksRows(s: State, cid: string, ids: seq<string>)
    requires AddLinksStep(s, cid, ids).out.Ok?
    ensures var rows := AddLinksStep(s, cid, ids).out.value;
            |rows| == |ids| && forall j :: 0 <= j < |ids| ==> rows[j].uuid == ids[j] && rows[j].collectionId == Some(cid)
    decreases |ids|
  {
    if ids != [] {
      var front := ids[..|ids| - 1];
      AddLinksRows(s, cid, front);
      AddLinksFrame(s, cid, front);
      LinkOneOutcome(s, AddLinksStep(s, cid, front).state, cid, ids[|ids| - 1]);
    }
  }

  /** When it rejects, the error is P2025 if the collection exists or the
      first id names no image, and P2003 otherwise: the first update's
      failure when the collection is missing. */
  lemma {:induction false} AddLinksError(s: State, cid: string, ids: seq<string>)
    requires AddLinksStep(s, cid, ids).out.Err?
    ensures AddLinksStep(s, cid, ids).out.error ==
              if CollectionIndexOf(s.collections, cid).Some? || IndexOf(s.records, ids[0]).None? then RecordNotFound
              else ForeignKeyViolation
    decreases |ids|
  {
    var front := ids[..|ids| - 1];
    AddLinksFrame(s, cid, front);
    LinkOneOutcome(s, AddLinksStep(s, cid, front).state, cid, ids[|ids| - 1]);
    if AddLinksStep(s, cid, front).out.Err? {
      AddLinksError(s, cid, front);
      assert front[0] == ids[0];
    } else if front != [] {
      AddLinksOk(s, cid, front);
      assert front[0] == ids[0];
    }
  }

  // ---------------------------------------------------------------------
  // removeImageFromCollection
  // ---------------------------------------------------------------------

  /** The `where` of the updateMany: a listed uuid and, when a collection is
      given, membership of it; an absent collection filters nothing. */
  predicate Unlinks(rec: ImageRecord, cid: Option<string>, ids: seq<string>)
  {
    rec.uuid in ids && (cid.None? || rec.collectionId == cid)
  }

  /** One row after the updateMany. */
  function UnlinkOne(rec: ImageRecord, cid: Option<string>, ids: seq<string>): ImageRecord
  {
    if Unlinks(rec, cid, ids) then rec.(collectionId := None) else rec
  }

  function Unlinked(rs: seq<ImageRecord>, cid: Option<string>, ids: seq<string>): (r: seq<ImageRecord>)
    ensures SameUuids(r, rs)
  {
    seq(|rs|, k requires 0 <= k < |rs| => UnlinkOne(rs[k], cid, ids))
  }

  /** The `count` updateMany returns. */
  function UnlinkCount(rs: seq<ImageRecord>, cid: Option<string>, ids: seq<string>): (n: nat)
    ensures n <= |rs|
    ensures n == 0 <==> forall k :: 0 <= k < |rs| ==> !Unlinks(rs[k], cid, ids)
  {
    if rs == [] then 0
    else
      var m := |rs| - 1;
      assert forall k :: 0 <= k < m ==> rs[k] == rs[..m][k];
      UnlinkCount(rs[..m], cid, ids) + if Unlinks(rs[m], cid, ids) then 1 else 0
  }

  /** The updateMany, row by row: the rewritten rows and how many matched. */
  method UnlinkRows(rs: seq<ImageRecord>, cid: Option<string>, ids: seq<string>)
    returns (out: seq<ImageRecord>, count: nat)
    ensures out == Unlinked(rs, cid, ids) && count == UnlinkCount(rs, cid, ids)
  {
    out := [];
    count := 0;
    var k := 0;
    while k < |rs|
      invariant 0 <= k <= |rs|
      invariant out == Unlinked(rs[..k], cid, ids)
      invariant count == UnlinkCount(rs[..k], cid, ids)
    {
      UnlinkCountStep(rs, cid, ids, k);
      UnlinkedStep(rs, cid, ids, k);
      out := out + [UnlinkOne(rs[k], cid, ids)];
      if Unlinks(rs[k], cid, ids) {
        count := count + 1;
      }
      k := k + 1;
    }
    assert rs[..k] == rs;
  }

  method RemoveImageFromCollection(w: World, cid: Option<string>, ids: seq<string>) returns (count: nat)
    modifies w
    ensures w.Snapshot() == old(w.Snapshot()).(records := Unlinked(old(w.records), cid, ids))
    ensures count == UnlinkCount(old(w.records), cid, ids)
  {
    var out;
    out, count := UnlinkRows(w.records, cid, ids);
    w.records := out;
  }

  lemma UnlinkedStep(rs: seq<ImageRecord>, cid: Option<string>, ids: seq<string>, k: nat)
    requires k < |rs|
    ensures Unlinked(rs[..k + 1], cid, ids) == Unlinked(rs[..k], cid, ids) + [UnlinkOne(rs[k], cid, ids)]
  {
  }

  /** Counting one more row adds one when that row matches. */
  lemma UnlinkCountStep(rs: seq<ImageRecord>, cid: Option<string>, ids: seq<string>, k: nat)
    requires k < |rs|
    ensures UnlinkCount(rs[..k + 1], cid, ids) == UnlinkCount(rs[..k], cid, ids) + if Unlinks(rs[k], cid, ids) then 1 else 0
  {
    assert rs[..k + 1][..k] == rs[..k];
  }

  /** Unlinking is undone by no update and undoes linking: images that were
      in no collection and are linked and then unlinked from the same
      collection are back where they were. */
  lemma AddRemoveRoundTrip(rs: seq<ImageRecord>, cid: string, ids: seq<string>)
    requires forall k :: 0 <= k < |rs| && rs[k].uuid in ids ==> rs[k].collectionId.None?
    ensures Unlinked(Relinked(rs, cid, ids, true), Some(cid), ids) == rs
  {
    var back := Unlinked(Relinked(rs, cid, ids, true), Some(cid), ids);
    forall k | 0 <= k < |rs| ensures back[k] == rs[k] {
    }
  }

  /** Only listed rows of the named collection lose their link; with no
      collection named, a listed row leaves whatever collection holds it. */
  lemma UnlinkScope(rs: seq<ImageRecord>, cid: Option<string>, ids: seq<string>, k: nat)
    requires k < |rs|
    ensures var r := Unlinked(rs, cid, ids)[k];
            && r.uuid == rs[k].uuid && r.filename == rs[k].filename && r.status == rs[k].status
            && r.createdAt == rs[k].createdAt && r.completedAt == rs[k].completedAt
            && (r.collectionId != rs[k].collectionId <==> rs[k].uuid in ids && rs[k].collectionId.Some? && (cid.None? || rs[k].collectionId == cid))
  {
  }

  // ---------------------------------------------------------------------
  // getCollectionById
  // ---------------------------------------------------------------------

  /** The `??` defaults: page 1, limit 10, descending, no search. */
  function Resolve(query: Option<ImagesQueryInput>): (q: PageQuery)
    ensures query.None? ==> q == PageQuery(1, 10, Desc, DefaultSearch)
    ensures query.Some? ==> && q.page == (if query.value.page.Some? then query.value.page.value else 1)
                            && q.limit == (if query.value.limit.Some? then query.value.limit.value else 10)
                            && q.sort == (if query.value.sort.Some? then query.value.sort.value else Desc)
                            && q.search == (if query.value.search.Some? then query.value.search.value else DefaultSearch)
  {
    match query
    case None => PageQuery(DefaultPage, DefaultLimit, Desc, DefaultSearch)
    case Some(iq) =>
      PageQuery(if iq.page.Some? then iq.page.value else DefaultPage,
                if iq.limit.Some? then iq.limit.value else DefaultLimit,
                if iq.sort.Some? then iq.sort.value else Desc,
                if iq.search.Some? then iq.search.value else DefaultSearch)
  }

  /** `Math.ceil(count / limit)`: not a finite number when limit is 0; the
      quotient rounds up, towards zero for a negative limit. */
  function Pages(count: nat, limit: int): (r: Option<int>)
    ensures r.None? <==> limit == 0
    ensures r.Some? ==> (r.value > 0 <==> limit > 0 && count > 0)
  {
    if limit == 0 then None
    else if limit > 0 then Some((count + limit - 1) / limit)
    else Some(-(count / -limit))
  }

  /** The result is the least integer p with p >= count / limit: for a
      positive limit, the fewest pages of `limit` rows that hold `count`
      rows. */
  lemma PagesCeil(count: nat, limit: int)
    requires limit != 0
    ensures var p := Pages(count, limit).value;
            if limit > 0 then (p - 1) * limit < count <= p * limit
            else p * limit <= count < (p - 1) * limit
  {
    if limit > 0 {
      var p := (count + limit - 1) / limit;
      var m := (count + limit - 1) % limit;
      assert count + limit - 1 == p * limit + m && 0 <= m < limit;
      assert (p - 1) * limit == p * limit - limit;
    } else {
      var d := -limit;
      var f := count / d;
      assert count == f * d + count % d && 0 <= count % d < d;
      NegatedProducts(f, d);
    }
  }

  lemma NegatedProducts(f: int, d: int)
    ensures (-f) * (-d) == f * d && (-f - 1) * (-d) == f * d + d
  {
  }

  /** `(page - 1) * limit`, the rows a page skips. */
  function Skip(q: PageQuery): int
  {
    (q.page - 1) * q.limit
  }

  /** The page's rows: the collection's rows matching the search, sorted, then
      `skip` and `take`. */
  function CollectionRows(s: State, cid: string, q: PageQuery): seq<ImageRecord>
    requires Skip(q) >= 0
  {
    PageOf(s.records, cid, Some(q.search), q.sort == Asc, Skip(q), q.limit)
  }

  function PageOf(rs: seq<ImageRecord>, cid: string, search: Option<string>, asc: bool, skip: nat, take: int): seq<ImageRecord>
  {
    ImageService.FindWindow(ImageService.SortByCreated(Listed(rs, cid, search), asc), skip, take)
  }

  /** getCollectionById as a function of the stores: null (Ok(None)) for an
      unknown uuid, the images query's error for a negative offset, and
      otherwise the page, with data attached only for status "succeeded". */
  function CollectionById(s: State, uuid: string, query: Option<ImagesQueryInput>): (r: Result<Option<CollectionPage>, Thrown>)
    ensures r == Ok(None) <==> CollectionIndexOf(s.collections, uuid).None?
    ensures r.Err? <==> CollectionIndexOf(s.collections, uuid).Some?
                        && Skip(Resolve(query)) < 0
    ensures r.Ok? && r.value.Some? ==>
              && r.value.value.collection.uuid == uuid && r.value.value.collection in s.collections
              && r.value.value.imageCount == r.value.value.totalItems == ImageCount(s.records, uuid)
              && r.value.value.page == Resolve(query).page && r.value.value.limit == Resolve(query).limit
              && r.value.value.totalPages == Pages(ImageCount(s.records, uuid), Resolve(query).limit)
              && |r.value.value.images| <= (if Resolve(query).limit >= 0 then Resolve(query).limit else -Resolve(query).limit)
  {
    var q := Resolve(query);
    match CollectionIndexOf(s.collections, uuid)
    case None => Ok(None)
    case Some(i) =>
      if Skip(q) < 0 then Err(ImageService.InvalidWindow)
      else
        var c := s.collections[i];
        var n := ImageCount(s.records, c.uuid);
        var rows := CollectionRows(s, c.uuid, q);
        Ok(Some(CollectionPage(c, n, ImageService.AttachAll(s.completed, rows, SucceededStatus),
                               q.page, q.limit, n, Pages(n, q.limit))))
  }

  method GetCollectionById(w: World, uuid: string, query: Option<ImagesQueryInput>, chunkSize: ImageResize.ChunkSize)
    returns (r: Result<Option<CollectionPage>, Thrown>)
    ensures r == CollectionById(w.Snapshot(), uuid, query)
  {
    var q := Resolve(query);
    var i := CollectionIndexOf(w.collections, uuid);
    if i.None? {
      return Ok(None);
    }
    if Skip(q) < 0 {
      return Err(ImageService.InvalidWindow);
    }
    var c := w.collections[i.value];
    var n := ImageCount(w.records, c.uuid);
    var rows := CollectionRows(w.Snapshot(), c.uuid, q);
    var views := ImageService.AttachRows(w, rows, SucceededStatus, chunkSize);
    r := Ok(Some(CollectionPage(c, n, views, q.page, q.limit, n, Pages(n, q.limit))));
  }

  /** Each listed image belongs to the collection, matches the search and is
      answered with data exactly when Attach gives it for "succeeded"; the
      rows come in the requested order. */
  lemma CollectionImagesSpec(s: State, uuid: string, query: Option<ImagesQueryInput>)
    requires CollectionById(s, uuid, query).Ok? && CollectionById(s, uuid, query).value.Some?
    ensures var p := CollectionById(s, uuid, query).value.value;
            var q := Resolve(query);
            && ImageService.SortedBy(seq(|p.images|, k requires 0 <= k < |p.images| => p.images[k].record), q.sort == Asc)
            && forall k :: 0 <= k < |p.images| ==>
                 && p.images[k].record in s.records
                 && p.images[k].record.collectionId == Some(uuid)
                 && ImageService.Matches(p.images[k].record, Some(q.search))
                 && p.images[k] == ImageService.Attach(s.completed, p.images[k].record, SucceededStatus)
  {
    var q := Resolve(query);
    var p := CollectionById(s, uuid, query).value.value;
    var rows := CollectionRows(s, uuid, q);
    assert p.images == ImageService.AttachAll(s.completed, rows, SucceededStatus);
    assert seq(|p.images|, k requires 0 <= k < |p.images| => p.images[k].record) == rows;
    CollectionRowsSpec(s, uuid, q);
  }

  /** The page's rows, before data is attached: sorted as asked, each a row
      of the collection matching the search. */
  lemma CollectionRowsSpec(s: State, cid: string, q: PageQuery)
    requires Skip(q) >= 0
    ensures var rows := CollectionRows(s, cid, q);
            && ImageService.SortedBy(rows, q.sort == Asc)
            && forall k :: 0 <= k < |rows| ==>
                 rows[k] in s.records && rows[k].collectionId == Some(cid) && ImageService.Matches(rows[k], Some(q.search))
  {
    WindowSpec(s.records, cid, Some(q.search), q.sort == Asc, Skip(q), q.limit);
  }

  lemma WindowSpec(rs: seq<ImageRecord>, cid: string, search: Option<string>, asc: bool, skip: nat, take: int)
    ensures var rows := PageOf(rs, cid, search, asc, skip, take);
            && |rows| <= (if take >= 0 then take else -take)
            && ImageService.SortedBy(rows, asc)
            && forall k :: 0 <= k < |rows| ==> rows[k] in rs && rows[k].collectionId == Some(cid) && ImageService.Matches(rows[k], search)
  {
    var all := ImageService.SortByCreated(Listed(rs, cid, search), asc);
    assert PageOf(rs, cid, search, asc, skip, take) == ImageService.FindWindow(all, skip, take);
    ImageService.SortSorted(Listed(rs, cid, search), asc);
    SortedRowsListed(rs, cid, search, asc, all);
    ListedWindow(rs, cid, search, all, asc, skip, take);
  }

  /** Every row of the sorted list is a row of the collection matching the
      search. */
  lemma SortedRowsListed(rs: seq<ImageRecord>, cid: string, search: Option<string>, asc: bool, all: seq<ImageRecord>)
    requires all == ImageService.SortByCreated(Listed(rs, cid, search), asc)
    ensures forall k :: 0 <= k < |all| ==> all[k] in rs && all[k].collectionId == Some(cid) && ImageService.Matches(all[k], search)
  {
    var listed := Listed(rs, cid, search);
    forall k | 0 <= k < |all|
      ensures all[k] in rs && all[k].collectionId == Some(cid) && ImageService.Matches(all[k], search)
    {
      SortedListed(listed, all, asc, k);
    }
  }

  /** A window of any sorted sequence of the collection's rows. */
  lemma ListedWindow(rs: seq<ImageRecord>, cid: string, search: Option<string>,
                     all: seq<ImageRecord>, asc: bool, skip: nat, take: int)
    requires ImageService.SortedBy(all, asc)
    requires forall k :: 0 <= k < |all| ==> all[k] in rs && all[k].collectionId == Some(cid) && ImageService.Matches(all[k], search)
    ensures var rows := ImageService.FindWindow(all, skip, take);
            && |rows| <= (if take >= 0 then take else -take)
            && ImageService.SortedBy(rows, asc)
            && forall k :: 0 <= k < |rows| ==> rows[k] in rs && rows[k].collectionId == Some(cid) && ImageService.Matches(rows[k], search)
  {
    var rows := ImageService.FindWindow(all, skip, take);
    ImageService.FindWindowSpec(all, skip, take, asc);
    forall k | 0 <= k < |rows|
      ensures rows[k] in rs && rows[k].collectionId == Some(cid) && ImageService.Matches(rows[k], search)
    {
      var o := ImageService.WindowRow(all, skip, take, k);
    }
  }

  /** A row of the sorted list is a row of the list. */
  lemma SortedListed(listed: seq<ImageRecord>, all: seq<ImageRecord>, asc: bool, i: nat)
    requires all == ImageService.SortByCreated(listed, asc) && i < |all|
    ensures all[i] in listed
  {
    assert all[i] in multiset(all);
  }

  /** With the defaults, a collection of at most ten images is one page: the
      rows are all its rows, sorted newest first. */
  lemma DefaultRowsAll(s: State, uuid: string)
    requires ImageCount(s.records, uuid) <= DefaultLimit
    ensures CollectionRows(s, uuid, Resolve(None)) == ImageService.SortByCreated(Listed(s.records, uuid, None), false)
  {
    ImageCountListed(s.records, uuid);
    ListedNoSearch(s.records, uuid);
  }

  /** With the defaults the controller relies on, a collection holding at
      most ten images lists every one of them on its single page. */
  lemma DefaultPageHoldsAll(s: State, uuid: string, k: nat)
    requires CollectionIndexOf(s.collections, uuid).Some? && ImageCount(s.records, uuid) <= DefaultLimit
    requires k < |s.records| && s.records[k].collectionId == Some(uuid)
    ensures var r := CollectionById(s, uuid, None);
            && r.Ok? && r.value.Some? && r.value.value.totalPages == Some(if ImageCount(s.records, uuid) == 0 then 0 else 1)
            && exists j :: 0 <= j < |r.value.value.images| && r.value.value.images[j].record == s.records[k]
  {
    var listed := Listed(s.records, uuid, None);
    var all := ImageService.SortByCreated(listed, false);
    DefaultRowsAll(s, uuid);
    var views := DefaultImages(s, uuid);
    assert views == ImageService.AttachAll(s.completed, all, SucceededStatus);
    var j := SortedPosition(listed, all, false, s.records[k]);
    assert views[j].record == s.records[k];
    var n := ImageCount(s.records, uuid);
    assert n > 0;
    assert (n + DefaultLimit - 1) / DefaultLimit == 1;
  }

  /** With the defaults, a known collection's page holds the views of
      `CollectionRows`. */
  lemma DefaultImages(s: State, uuid: string) returns (views: seq<ImageService.ImageView>)
    requires CollectionIndexOf(s.collections, uuid).Some?
    ensures CollectionById(s, uuid, None).Ok? && CollectionById(s, uuid, None).value.Some?
    ensures views == CollectionById(s, uuid, None).value.value.images
    ensures views == ImageService.AttachAll(s.completed, CollectionRows(s, uuid, Resolve(None)), SucceededStatus)
  {
    views := CollectionById(s, uuid, None).value.value.images;
  }

  /** A row of the list has a place in the sorted list. */
  lemma SortedPosition(listed: seq<ImageRecord>, all: seq<ImageRecord>, asc: bool, x: ImageRecord) returns (j: nat)
    requires all == ImageService.SortByCreated(listed, asc) && x in listed
    ensures j < |all| && all[j] == x
  {
    assert x in multiset(listed);
    assert x in multiset(all);
    j :| 0 <= j < |all| && all[j] == x;
  }

  /** An empty search term is no filter. */
  lemma {:induction false} ListedNoSearch(rs: seq<ImageRecord>, cid: string)
    ensures Listed(rs, cid, Some(DefaultSearch)) == Listed(rs, cid, None)
    decreases |rs|
  {
    if rs != [] {
      ListedNoSearch(rs[1..], cid);
    }
  }

  /** The pagination block reads the collection's count, whatever the
      search term narrows the page to. */
  lemma TotalsIgnoreSearch(s: State, uuid: string, a: ImagesQueryInput, b: ImagesQueryInput)
    requires a.page == b.page && a.limit == b.limit
    requires CollectionById(s, uuid, Some(a)).Ok? && CollectionById(s, uuid, Some(a)).value.Some?
    ensures CollectionById(s, uuid, Some(b)).Ok? && CollectionById(s, uuid, Some(b)).value.Some?
    ensures CollectionById(s, uuid, Some(a)).value.value.totalItems == CollectionById(s, uuid, Some(b)).value.value.totalItems
    ensures CollectionById(s, uuid, Some(a)).value.value.totalPages == CollectionById(s, uuid, Some(b)).value.value.totalPages
  {
  }

  // ---------------------------------------------------------------------
  // Invariants of the relationship updates
  // ---------------------------------------------------------------------

  /** Linking and unlinking change no uuid and no status, so uniqueness and
      the known statuses survive, and the foreign key keeps holding. */
  lemma RelinkKeepsInvariants(s: State, cid: string, ids: seq<string>)
    requires Valid(s) && Linked(s) && KnownStatuses(s.records)
    ensures var t := AddLinksStep(s, cid, ids).state;
            Valid(t) && Linked(t) && KnownStatuses(t.records)
  {
    AddLinksState(s, cid, ids);
  }

  lemma UnlinkKeepsInvariants(s: State, cid: Option<string>, ids: seq<string>)
    requires Valid(s) && Linked(s) && KnownStatuses(s.records)
    ensures var t := s.(records := Unlinked(s.records, cid, ids));
            Valid(t) && Linked(t) && KnownStatuses(t.records)
  {
  }
}
