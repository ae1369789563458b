/**
 * The image service: creating a processing task (publish, then insert the
 * row), direct upload, deletion, and the two read queries that attach the
 * thumbnail as a JPEG data URL.
 */
module ImageService {
  import opened Wrappers
  import opened Bytes
  import opened Strings
  import opened World
  import opened KafkaService
  import Base64
  import ImageDto
  import ImageResize

  /** The status the read side looks for before attaching image data. */
  const CompletedStatus: string := "completed"

  const ImageNotFound: Thrown := Error("Error", "Image not found")
  const UploadMessage: string := "Upload successful and processing started"

  /** Prisma's error for a negative `skip` or `take` (the model's reading). */
  const InvalidWindow: Thrown := Error("PrismaClientValidationError", "skip")

  /** A row as the read side returns it, with `imageData` when attached. */
  datatype ImageView = ImageView(record: ImageRecord, imageData: Option<string>)

  /** What uploadAndProcessImage answers. */
  datatype UploadResult = UploadResult(uuid: string, filename: string, status: string, message: string)

  /** The multer file object: name, mimetype, size and contents. */
  datatype UploadedFile = UploadedFile(originalName: string, mimetype: string, size: int, buffer: Bytes)

  // ---------------------------------------------------------------------
  // createProcessingTask
  // ---------------------------------------------------------------------

  /** The row createProcessingTask inserts. */
  function NewRecord(dto: ImageDto.ImageDto, now: int): (r: ImageRecord)
    ensures r.uuid == dto.uuid && r.filename == dto.filename && r.description == dto.description
    ensures r.status == PendingStatus && r.collectionId.None? && r.completedAt == 0 && r.createdAt == now
  {
    ImageRecord(dto.uuid, dto.filename, dto.description, PendingStatus, now, 0, None)
  }

  /** sendJobToKafka on a state. */
  function PublishStep(s: State, uuid: string, script: nat -> Attempt): Step<Result<bool, Thrown>>
  {
    Step(s.(tasks := s.tasks + SendJob(uuid, script).published), SendJob(uuid, script).result)
  }

  /** `prisma.thumbnailImage.create`: fails on a uuid already taken. */
  function InsertStep(s: State, dto: ImageDto.ImageDto, now: int): Step<Result<ImageRecord, Thrown>>
  {
    if IndexOf(s.records, dto.uuid).Some? then Step(s, Err(UniqueViolation))
    else Step(s.(records := s.records + [NewRecord(dto, now)]), Ok(NewRecord(dto, now)))
  }

  /** createProcessingTask: publish first, insert after. */
  function CreateTaskStep(s: State, dto: ImageDto.ImageDto, script: nat -> Attempt, now: int): Step<Result<ImageRecord, Thrown>>
  {
    var p := PublishStep(s, dto.uuid, script);
    if p.out.Err? then Step(p.state, Err(p.out.error)) else InsertStep(p.state, dto, now)
  }

  method CreateProcessingTask(w: World, dto: ImageDto.ImageDto, script: nat -> Attempt, now: int)
    returns (r: Result<ImageRecord, Thrown>)
    modifies w
    ensures Step(w.Snapshot(), r) == CreateTaskStep(old(w.Snapshot()), dto, script, now)
  {
    var sent, delays := SendJobToKafka(w, dto.uuid, script);
    if sent.Err? {
      return Err(sent.error);
    }
    if IndexOf(w.records, dto.uuid).Some? {
      return Err(UniqueViolation);
    }
    var record := NewRecord(dto, now);
    w.records := w.records + [record];
    r := Ok(record);
  }

  /** If publishing fails no row is created and the error propagates;
      otherwise exactly one task message goes out before the row exists. */
  lemma CreateTaskOutcome(s: State, dto: ImageDto.ImageDto, script: nat -> Attempt, now: int)
    ensures var t := CreateTaskStep(s, dto, script, now);
            && (SendJob(dto.uuid, script).result.Err? ==>
                  t.state.records == s.records && t.out == Err(SendJob(dto.uuid, script).result.error))
            && (SendJob(dto.uuid, script).result.Ok? ==>
                  |t.state.tasks| == |s.tasks| + 1 && t.state.tasks[|s.tasks|].key == Some(dto.uuid))
            && (t.out.Ok? <==> SendJob(dto.uuid, script).result.Ok? && IndexOf(s.records, dto.uuid).None?)
            && (t.out.Ok? ==> t.state.records == s.records + [NewRecord(dto, now)] && t.out.value == NewRecord(dto, now))
            && t.state.uploads == s.uploads && t.state.completed == s.completed
  {
    SendJobSucceedsIff(dto.uuid, script);
    SendJobBounds(dto.uuid, script);
    if FirstDelivery(script, 0).Some? {
      assert SendJob(dto.uuid, script).published == [TaskMessage(dto.uuid, script(FirstDelivery(script, 0).value).now)];
    }
  }

  /** The uuid column stays unique, and every status stays one the pipeline writes. */
  lemma CreateTaskKeepsInvariants(s: State, dto: ImageDto.ImageDto, script: nat -> Attempt, now: int)
    requires Valid(s) && KnownStatuses(s.records)
    ensures Valid(CreateTaskStep(s, dto, script, now).state)
    ensures KnownStatuses(CreateTaskStep(s, dto, script, now).state.records)
  {
    if SendJob(dto.uuid, script).result.Ok? && IndexOf(s.records, dto.uuid).None? {
      UniqueAppend(s.records, NewRecord(dto, now));
    }
  }

  // ---------------------------------------------------------------------
  // uploadAndProcessImage
  // ---------------------------------------------------------------------

  /** uploadAndProcessImage: stage the bytes under a fresh uuid, then create
      the task; `putError` is what putObject throws, if anything. */
  function UploadStep(s: State, file: UploadedFile, description: Option<string>, newUuid: string,
                      putError: Option<Thrown>, script: nat -> Attempt, now: int): Step<Result<UploadResult, Thrown>>
  {
    if putError.Some? then Step(s, Err(putError.value))
    else
      var s1 := s.(uploads := s.uploads[newUuid := file.buffer]);
      var t := CreateTaskStep(s1, ImageDto.ImageDto(newUuid, file.originalName, description), script, now);
      Step(t.state, if t.out.Ok? then Ok(UploadResult(newUuid, file.originalName, PendingStatus, UploadMessage)) else Err(t.out.error))
  }

  method UploadAndProcessImage(w: World, file: UploadedFile, description: Option<string>, newUuid: string,
                               putError: Option<Thrown>, script: nat -> Attempt, now: int)
    returns (r: Result<UploadResult, Thrown>)
    requires ImageResize.SharedSchemas.IsUuid(newUuid)
    modifies w
    ensures Step(w.Snapshot(), r) == UploadStep(old(w.Snapshot()), file, description, newUuid, putError, script, now)
  {
    if putError.Some? {
      return Err(putError.value);
    }
    w.uploads := w.uploads[newUuid := file.buffer];
    var created := CreateProcessingTask(w, ImageDto.ImageDto(newUuid, file.originalName, description), script, now);
    if created.Err? {
      return Err(created.error);
    }
    r := Ok(UploadResult(newUuid, file.originalName, PendingStatus, UploadMessage));
  }

  /** The bytes are staged before any task exists; a store failure means no
      task and no row; success answers the fresh uuid, the original name and
      "pending", with a pending row for that uuid. */
  lemma UploadOutcome(s: State, file: UploadedFile, description: Option<string>, newUuid: string,
                      putError: Option<Thrown>, script: nat -> Attempt, now: int)
    ensures var t := UploadStep(s, file, description, newUuid, putError, script, now);
            && (putError.Some? ==> t == Step(s, Err(putError.value)))
            && (putError.None? ==> newUuid in t.state.uploads && t.state.uploads[newUuid] == file.buffer)
            && (t.out.Ok? ==> && t.out.value == UploadResult(newUuid, file.originalName, PendingStatus, UploadMessage)
                              && IndexOf(t.state.records, newUuid).Some?
                              && t.state.records[IndexOf(t.state.records, newUuid).value].status == PendingStatus)
  {
    if putError.None? {
      var s1 := s.(uploads := s.uploads[newUuid := file.buffer]);
      var dto := ImageDto.ImageDto(newUuid, file.originalName, description);
      CreateTaskOutcome(s1, dto, script, now);
      var t := CreateTaskStep(s1, dto, script, now);
      if t.out.Ok? {
        assert t.state.records[|t.state.records| - 1].uuid == newUuid;
      }
    }
  }

  // ---------------------------------------------------------------------
  // Attaching image data
  // ---------------------------------------------------------------------

  /** The row, with `imageData` when its status is `ready` and its thumbnail
      can be read from the completed bucket; without it otherwise. */
  function Attach(completed: map<string, Bytes>, rec: ImageRecord, ready: string): (v: ImageView)
    ensures v.record == rec
    ensures v.imageData.Some? <==> rec.status == ready && ValidObjectName(rec.uuid) && rec.uuid in completed
    ensures v.imageData.Some? ==> Base64.ParseJpegDataUrl(v.imageData.value) == Some(completed[rec.uuid])
  {
    if rec.status == ready && ValidObjectName(rec.uuid) && rec.uuid in completed then
      Base64.DataUrlRoundTrip(completed[rec.uuid]);
      ImageView(rec, Some(Base64.JpegDataUrl(completed[rec.uuid])))
    else ImageView(rec, None)
  }

  /** getObject, the chunk loop, `toString('base64')`; a failed read returns
      the row as it is. */
  method AttachData(w: World, rec: ImageRecord, ready: string, chunkSize: ImageResize.ChunkSize) returns (v: ImageView)
    ensures v == Attach(w.completed, rec, ready)
  {
    if rec.status != ready || !ValidObjectName(rec.uuid) || rec.uuid !in w.completed {
      return ImageView(rec, None);
    }
    var buffer := ReadAll(Chunks(w.completed[rec.uuid], chunkSize));
    ConcatChunks(w.completed[rec.uuid], chunkSize);
    v := ImageView(rec, Some(Base64.JpegDataUrl(buffer)));
  }

  // ---------------------------------------------------------------------
  // getImageById
  // ---------------------------------------------------------------------

  /** getImageById with the status it looks for as a parameter. */
  function ImageByIdFor(s: State, uuid: string, ready: string): (r: Option<ImageView>)
    ensures r.None? <==> forall i :: 0 <= i < |s.records| ==> s.records[i].uuid != uuid
    ensures r.Some? ==> r.value.record.uuid == uuid && r.value.record in s.records
    ensures r.Some? ==> r.value == Attach(s.completed, r.value.record, ready)
  {
    match FindImage(s.records, uuid)
    case None => None
    case Some(rec) => Some(Attach(s.completed, rec, ready))
  }

  /** getImageById as written: data only for status "completed". */
  function ImageById(s: State, uuid: string): (r: Option<ImageView>)
    ensures r.Some? && r.value.imageData.Some? ==> r.value.record.status == CompletedStatus
  {
    ImageByIdFor(s, uuid, CompletedStatus)
  }

  /** getImageById looking for the status handleCompletion writes. */
  function ImageByIdCorrected(s: State, uuid: string): (r: Option<ImageView>)
    ensures r.Some? && r.value.imageData.Some? ==> r.value.record.status == SucceededStatus
  {
    ImageByIdFor(s, uuid, SucceededStatus)
  }

  method GetImageById(w: World, uuid: string, chunkSize: ImageResize.ChunkSize) returns (r: Option<ImageView>)
    ensures r == ImageById(w.Snapshot(), uuid)
  {
    var found := FindImage(w.records, uuid);
    if found.None? {
      return None;
    }
    var v := AttachData(w, found.value, CompletedStatus, chunkSize);
    r := Some(v);
  }

  // ---------------------------------------------------------------------
  // getImages
  // ---------------------------------------------------------------------

  /** The `OR` of the two case-insensitive `contains` filters; an absent or
      empty search term filters nothing. */
  predicate Matches(rec: ImageRecord, search: Option<string>)
  {
    || search.None? || search.value == ""
    || HasSubstring(Lower(rec.filename), Lower(search.value))
    || (rec.description.Some? && HasSubstring(Lower(rec.description.value), Lower(search.value)))
  }

  /** The `where` clause: status `ready` and the search filter, table order kept. */
  function Selected(rs: seq<ImageRecord>, search: Option<string>, ready: string): (r: seq<ImageRecord>)
    ensures forall k :: 0 <= k < |r| ==> r[k] in rs && r[k].status == ready && Matches(r[k], search)
    ensures forall k :: 0 <= k < |rs| && rs[k].status == ready && Matches(rs[k], search) ==> rs[k] in r
    ensures |r| <= |rs|
  {
    if rs == [] then []
    else
      var rest := Selected(rs[1..], search, ready);
      assert forall k :: 1 <= k < |rs| ==> rs[k] == rs[1..][k - 1];
      if rs[0].status == ready && Matches(rs[0], search) then [rs[0]] + rest else rest
  }

  /** The order `orderBy: {createdAt: asc | desc}` asks for. */
  predicate InOrder(a: ImageRecord, b: ImageRecord, asc: bool)
  {
    if asc then a.createdAt <= b.createdAt else a.createdAt >= b.createdAt
  }

  predicate SortedBy(xs: seq<ImageRecord>, asc: bool)
  {
    forall i, j :: 0 <= i < j < |xs| ==> InOrder(xs[i], xs[j], asc)
  }

  /** Puts `x` before the first row it may precede. */
  function Insert(x: ImageRecord, xs: seq<ImageRecord>, asc: bool): (r: seq<ImageRecord>)
    ensures multiset(r) == multiset(xs) + multiset{x}
    ensures |r| == |xs| + 1
  {
    if xs == [] then [x]
    else if InOrder(x, xs[0], asc) then [x] + xs
    else
      assert xs == [xs[0]] + xs[1..];
      [xs[0]] + Insert(x, xs[1..], asc)
  }

  /** Insertion sort by createdAt; rows with equal times keep table order. */
  function SortByCreated(xs: seq<ImageRecord>, asc: bool): (r: seq<ImageRecord>)
    ensures multiset(r) == multiset(xs)
    ensures |r| == |xs|
  {
    if xs == [] then []
    else
      assert xs == [xs[0]] + xs[1..];
      Insert(xs[0], SortByCreated(xs[1..], asc), asc)
  }

  /** A row that may precede `x` and every row of `xs` may precede every row
      of the insertion. */
  lemma InsertBound(y: ImageRecord, x: ImageRecord, xs: seq<ImageRecord>, asc: bool)
    requires InOrder(y, x, asc) && forall k :: 0 <= k < |xs| ==> InOrder(y, xs[k], asc)
    ensures forall k :: 0 <= k < |Insert(x, xs, asc)| ==> InOrder(y, Insert(x, xs, asc)[k], asc)
  {
    var r := Insert(x, xs, asc);
    forall k | 0 <= k < |r| ensures InOrder(y, r[k], asc) {
      assert r[k] in multiset(r);
      if r[k] != x {
        assert r[k] in multiset(xs);
        var j :| 0 <= j < |xs| && xs[j] == r[k];
      }
    }
  }

  lemma ConsSorted(y: ImageRecord, xs: seq<ImageRecord>, asc: bool)
    requires SortedBy(xs, asc) && forall k :: 0 <= k < |xs| ==> InOrder(y, xs[k], asc)
    ensures SortedBy([y] + xs, asc)
  {
    var r := [y] + xs;
    forall i, j | 0 <= i < j < |r| ensures InOrder(r[i], r[j], asc) {
      if i > 0 {
        assert r[i] == xs[i - 1] && r[j] == xs[j - 1];
      }
    }
  }

  lemma {:induction false} InsertSorted(x: ImageRecord, xs: seq<ImageRecord>, asc: bool)
    requires SortedBy(xs, asc)
    ensures SortedBy(Insert(x, xs, asc), asc)
    decreases |xs|
  {
    if xs == [] {
    } else if InOrder(x, xs[0], asc) {
      forall k | 0 <= k < |xs| ensures InOrder(x, xs[k], asc) {
        if k > 0 { assert InOrder(xs[0], xs[k], asc); }
      }
      ConsSorted(x, xs, asc);
    } else {
      var tail := xs[1..];
      assert forall k :: 0 <= k < |tail| ==> tail[k] == xs[k + 1];
      InsertSorted(x, tail, asc);
      assert InOrder(xs[0], x, asc);
      InsertBound(xs[0], x, tail, asc);
      ConsSorted(xs[0], Insert(x, tail, asc), asc);
    }
  }

  /** The sort orders the rows as asked. */
  lemma {:induction false} SortSorted(xs: seq<ImageRecord>, asc: bool)
    ensures SortedBy(SortByCreated(xs, asc), asc)
    decreases |xs|
  {
    if xs != [] {
      SortSorted(xs[1..], asc);
      InsertSorted(xs[0], SortByCreated(xs[1..], asc), asc);
    }
  }

  /** `skip` then `take`. */
  function Window(xs: seq<ImageRecord>, skip: nat, take: nat): (r: seq<ImageRecord>)
    ensures |r| <= take
    ensures forall k :: 0 <= k < |r| ==> skip + k < |xs| && r[k] == xs[skip + k]
    ensures skip + take <= |xs| ==> |r| == take
    ensures skip == 0 && take >= |xs| ==> r == xs
  {
    if skip >= |xs| then [] else if skip + take >= |xs| then xs[skip..] else xs[skip..skip + take]
  }

  /** The rows in the opposite order. */
  function Reversed(xs: seq<ImageRecord>): (r: seq<ImageRecord>)
    ensures |r| == |xs| && forall k :: 0 <= k < |xs| ==> r[k] == xs[|xs| - 1 - k]
  {
    seq(|xs|, k requires 0 <= k < |xs| => xs[|xs| - 1 - k])
  }

  /** A negative `take` of `-take` rows: the rows that end `skip` rows
      before the end, still in the requested order. */
  function WindowFromEnd(xs: seq<ImageRecord>, skip: nat, take: nat): (r: seq<ImageRecord>)
    ensures |r| <= take
    ensures forall k :: 0 <= k < |r| ==> |r| + skip <= |xs| && r[k] == xs[|xs| - skip - |r| + k]
    ensures skip + take <= |xs| ==> |r| == take
    ensures skip == 0 && take >= |xs| ==> r == xs
  {
    if skip >= |xs| then [] else if skip + take >= |xs| then xs[..|xs| - skip] else xs[|xs| - skip - take..|xs| - skip]
  }

  /** Prisma's reading of a negative take: flip the order, skip and take,
      and flip the rows back. */
  lemma WindowFromEndReversed(xs: seq<ImageRecord>, skip: nat, take: nat)
    ensures WindowFromEnd(xs, skip, take) == Reversed(Window(Reversed(xs), skip, take))
  {
    var r := WindowFromEnd(xs, skip, take);
    var w := Window(Reversed(xs), skip, take);
    var n := if skip >= |xs| then 0 else if skip + take >= |xs| then |xs| - skip else take;
    assert |r| == n;
    assert |w| == n;
    forall k | 0 <= k < n ensures r[k] == Reversed(w)[k] {
      assert Reversed(w)[k] == w[n - 1 - k] == Reversed(xs)[skip + n - 1 - k];
    }
  }

  /** findMany's `skip` and `take`: a negative take counts back from the end. */
  function FindWindow(xs: seq<ImageRecord>, skip: nat, take: int): (r: seq<ImageRecord>)
    ensures |r| <= (if take >= 0 then take else -take)
  {
    if take >= 0 then Window(xs, skip, take) else WindowFromEnd(xs, skip, -take)
  }

  /** The window holds at most |take| rows, each at its place in `xs`, and
      keeps the order of `xs`. */
  lemma FindWindowSpec(xs: seq<ImageRecord>, skip: nat, take: int, asc: bool)
    ensures var r := FindWindow(xs, skip, take);
            && |r| <= (if take >= 0 then take else -take)
            && (take >= 0 ==> forall k :: 0 <= k < |r| ==> skip + k < |xs| && r[k] == xs[skip + k])
            && (take < 0 ==> forall k :: 0 <= k < |r| ==> |r| + skip <= |xs| && r[k] == xs[|xs| - skip - |r| + k])
            && (SortedBy(xs, asc) ==> SortedBy(r, asc))
  {
    var r := FindWindow(xs, skip, take);
    if SortedBy(xs, asc) {
      var o := if take >= 0 then skip else |xs| - skip - |r|;
      assert forall k :: 0 <= k < |r| ==> 0 <= o + k < |xs| && r[k] == xs[o + k];
      forall i, j | 0 <= i < j < |r| ensures InOrder(r[i], r[j], asc) {
        assert r[i] == xs[o + i] && r[j] == xs[o + j];
      }
    }
  }

  /** The selection in the requested order. */
  function SortedSelection(rs: seq<ImageRecord>, search: Option<string>, ready: string, asc: bool): seq<ImageRecord>
  {
    SortByCreated(Selected(rs, search, ready), asc)
  }

  /** `(page - 1) * limit`, the rows a page skips. */
  function Offset(q: ImageDto.ImagesQuery): int
  {
    (q.page - 1) * q.limit
  }

  /** The rows findMany returns for a query: filtered, sorted, windowed. */
  function PageRows(s: State, q: ImageDto.ImagesQuery, ready: string): Result<seq<ImageRecord>, Thrown>
  {
    if Offset(q) < 0 then Err(InvalidWindow)
    else Ok(FindWindow(SortedSelection(s.records, q.search, ready, q.sort == ImageDto.Asc), Offset(q), q.limit))
  }

  /** Each row of the page, with its data attached or not. */
  function AttachAll(completed: map<string, Bytes>, rows: seq<ImageRecord>, ready: string): (r: seq<ImageView>)
    ensures |r| == |rows|
    ensures forall k :: 0 <= k < |rows| ==> r[k] == Attach(completed, rows[k], ready)
  {
    seq(|rows|, k requires 0 <= k < |rows| => Attach(completed, rows[k], ready))
  }

  /** getImages with the status it looks for as a parameter. */
  function ImagesFor(s: State, q: ImageDto.ImagesQuery, ready: string): Result<seq<ImageView>, Thrown>
  {
    match PageRows(s, q, ready)
    case Err(e) => Err(e)
    case Ok(rows) => Ok(AttachAll(s.completed, rows, ready))
  }

  /** getImages as written: only rows with status "completed". */
  function Images(s: State, q: ImageDto.ImagesQuery): Result<seq<ImageView>, Thrown>
  {
    ImagesFor(s, q, CompletedStatus)
  }

  /** getImages looking for the status handleCompletion writes. */
  function ImagesCorrected(s: State, q: ImageDto.ImagesQuery): Result<seq<ImageView>, Thrown>
  {
    ImagesFor(s, q, SucceededStatus)
  }

  /** The `Promise.all` over the page, as a loop: each row with its data. */
  method AttachRows(w: World, rows: seq<ImageRecord>, ready: string, chunkSize: ImageResize.ChunkSize)
    returns (views: seq<ImageView>)
    ensures views == AttachAll(w.completed, rows, ready)
  {
    views := [];
    var i := 0;
    while i < |rows|
      invariant 0 <= i <= |rows| && |views| == i
      invariant forall k :: 0 <= k < i ==> views[k] == Attach(w.completed, rows[k], ready)
    {
      var v := AttachData(w, rows[i], ready, chunkSize);
      views := views + [v];
      i := i + 1;
    }
  }

  method GetImages(w: World, q: ImageDto.ImagesQuery, chunkSize: ImageResize.ChunkSize)
    returns (r: Result<seq<ImageView>, Thrown>)
    ensures r == Images(w.Snapshot(), q)
  {
    var rows := PageRows(w.Snapshot(), q, CompletedStatus);
    if rows.Err? {
      return Err(rows.error);
    }
    var views := AttachRows(w, rows.value, CompletedStatus, chunkSize);
    r := Ok(views);
  }

  /** A row of the sorted selection is a row of the table with the status
      and matching the search. */
  lemma SortedRowSelected(rs: seq<ImageRecord>, search: Option<string>, ready: string, asc: bool, i: nat)
    requires i < |SortedSelection(rs, search, ready, asc)|
    ensures var x := SortedSelection(rs, search, ready, asc)[i];
            x in rs && x.status == ready && Matches(x, search)
  {
    var sel := Selected(rs, search, ready);
    var all := SortByCreated(sel, asc);
    assert all[i] in multiset(all);
    assert all[i] in multiset(sel);
    var j :| 0 <= j < |sel| && sel[j] == all[i];
  }

  /** The rows of a page: at most |limit| rows of the sorted selection,
      from offset (page - 1) * limit for a limit of zero or more and ending
      that many rows before the end for a negative one, each a table row
      with the status and matching the search, in the requested order; a
      negative offset is refused. */
  lemma PageRowsSpec(s: State, q: ImageDto.ImagesQuery, ready: string)
    ensures PageRows(s, q, ready).Err? <==> Offset(q) < 0
    ensures var r := PageRows(s, q, ready);
            r.Ok? ==> |r.value| <= (if q.limit >= 0 then q.limit else -q.limit) && SortedBy(r.value, q.sort == ImageDto.Asc)
    ensures var r := PageRows(s, q, ready);
            var all := SortedSelection(s.records, q.search, ready, q.sort == ImageDto.Asc);
            r.Ok? && q.limit >= 0 ==> forall k :: 0 <= k < |r.value| ==>
              Offset(q) + k < |all| && r.value[k] == all[Offset(q) + k]
    ensures var r := PageRows(s, q, ready);
            r.Ok? ==> forall k :: 0 <= k < |r.value| ==>
              r.value[k] in s.records && r.value[k].status == ready && Matches(r.value[k], q.search)
  {
    var asc := q.sort == ImageDto.Asc;
    var skip := Offset(q);
    if skip >= 0 {
      var all := SortedSelection(s.records, q.search, ready, asc);
      var rows := FindWindow(all, skip, q.limit);
      assert PageRows(s, q, ready) == Ok(rows);
      SelectionWindowSpec(s.records, q.search, ready, asc, skip, q.limit);
    }
  }

  /** With a negative limit the page is what Prisma documents for a negative
      take: the sorted selection in the opposite order, `(page - 1) * limit`
      rows skipped and -limit rows taken, flipped back. */
  lemma PageRowsFromEnd(s: State, q: ImageDto.ImagesQuery, ready: string)
    requires q.limit < 0
    ensures var r := PageRows(s, q, ready);
            var all := SortedSelection(s.records, q.search, ready, q.sort == ImageDto.Asc);
            r.Ok? ==> 0 <= Offset(q) && r.value == Reversed(Window(Reversed(all), Offset(q), -q.limit))
  {
    if Offset(q) >= 0 {
      var all := SortedSelection(s.records, q.search, ready, q.sort == ImageDto.Asc);
      WindowFromEndReversed(all, Offset(q), -q.limit);
      assert PageRows(s, q, ready) == Ok(FindWindow(all, Offset(q), q.limit));
    }
  }

  /** What a window of the sorted selection holds: at most |take| rows, each
      at its place in the selection (counted from the front for a take of
      zero or more, from the back otherwise), sorted, and each a table row
      with the status and matching the search. */
  lemma SelectionWindowSpec(rs: seq<ImageRecord>, search: Option<string>, ready: string, asc: bool, skip: nat, take: int)
    ensures var all := SortedSelection(rs, search, ready, asc);
            var rows := FindWindow(all, skip, take);
            && |rows| <= (if take >= 0 then take else -take)
            && SortedBy(rows, asc)
            && (take >= 0 ==> forall k :: 0 <= k < |rows| ==> skip + k < |all| && rows[k] == all[skip + k])
            && (take < 0 ==> forall k :: 0 <= k < |rows| ==> |rows| + skip <= |all| && rows[k] == all[|all| - skip - |rows| + k])
            && (forall k :: 0 <= k < |rows| ==> rows[k] in rs && rows[k].status == ready && Matches(rows[k], search))
  {
    SortSorted(Selected(rs, search, ready), asc);
    SortedRowsSelected(rs, search, ready, asc);
    SortedWindow(rs, search, ready, SortedSelection(rs, search, ready, asc), asc, skip, take);
  }

  /** Every row of the sorted selection is a table row with the status and
      matching the search. */
  lemma SortedRowsSelected(rs: seq<ImageRecord>, search: Option<string>, ready: string, asc: bool)
    ensures var all := SortedSelection(rs, search, ready, asc);
            forall k :: 0 <= k < |all| ==> all[k] in rs && all[k].status == ready && Matches(all[k], search)
  {
    var all := SortedSelection(rs, search, ready, asc);
    forall k | 0 <= k < |all|
      ensures all[k] in rs && all[k].status == ready && Matches(all[k], search)
    {
      SortedRowSelected(rs, search, ready, asc, k);
    }
  }

  /** A window of any sorted sequence of selected rows. */
  lemma SortedWindow(rs: seq<ImageRecord>, search: Option<string>, ready: string,
                     all: seq<ImageRecord>, asc: bool, skip: nat, take: int)
    requires SortedBy(all, asc)
    requires forall k :: 0 <= k < |all| ==> all[k] in rs && all[k].status == ready && Matches(all[k], search)
    ensures var rows := FindWindow(all, skip, take);
            && |rows| <= (if take >= 0 then take else -take)
            && SortedBy(rows, asc)
            && (take >= 0 ==> forall k :: 0 <= k < |rows| ==> skip + k < |all| && rows[k] == all[skip + k])
            && (take < 0 ==> forall k :: 0 <= k < |rows| ==> |rows| + skip <= |all| && rows[k] == all[|all| - skip - |rows| + k])
            && (forall k :: 0 <= k < |rows| ==> rows[k] in rs && rows[k].status == ready && Matches(rows[k], search))
  {
    var rows := FindWindow(all, skip, take);
    FindWindowSpec(all, skip, take, asc);
    forall k | 0 <= k < |rows|
      ensures rows[k] in rs && rows[k].status == ready && Matches(rows[k], search)
    {
      var o := WindowRow(all, skip, take, k);
    }
  }

  /** A first page with limit -1 is the last row of the sorted selection. */
  lemma LastRowPage(s: State, q: ImageDto.ImagesQuery, ready: string)
    requires q.page == 1 && q.limit == -1
    requires SortedSelection(s.records, q.search, ready, q.sort == ImageDto.Asc) != []
    ensures var all := SortedSelection(s.records, q.search, ready, q.sort == ImageDto.Asc);
            PageRows(s, q, ready) == Ok([all[|all| - 1]])
  {
    var all := SortedSelection(s.records, q.search, ready, q.sort == ImageDto.Asc);
    var r := WindowFromEnd(all, 0, 1);
    assert PageRows(s, q, ready) == Ok(r);
    assert |r| == 1 && r[0] == all[|all| - 1];
    assert r == [all[|all| - 1]];
  }

  lemma WindowSelected(rs: seq<ImageRecord>, search: Option<string>, ready: string, asc: bool, skip: nat, take: int)
    ensures var rows := FindWindow(SortedSelection(rs, search, ready, asc), skip, take);
            forall k :: 0 <= k < |rows| ==> rows[k] in rs && rows[k].status == ready && Matches(rows[k], search)
  {
    var all := SortedSelection(rs, search, ready, asc);
    var rows := FindWindow(all, skip, take);
    forall k | 0 <= k < |rows|
      ensures rows[k] in rs && rows[k].status == ready && Matches(rows[k], search)
    {
      var o := WindowRow(all, skip, take, k);
      SortedRowSelected(rs, search, ready, asc, o);
    }
  }

  /** Every row of a window is a row of the sequence it was cut from. */
  lemma WindowRow(xs: seq<ImageRecord>, skip: nat, take: int, k: nat) returns (o: nat)
    requires k < |FindWindow(xs, skip, take)|
    ensures o < |xs| && FindWindow(xs, skip, take)[k] == xs[o]
  {
    var r := FindWindow(xs, skip, take);
    if take >= 0 {
      assert r[k] == xs[skip + k];
      o := skip + k;
    } else {
      assert |r| + skip <= |xs| && r[k] == xs[|xs| - skip - |r| + k];
      o := |xs| - skip - |r| + k;
    }
  }

  /** getImages answers the page's rows in order, each with its data
      attached exactly as Attach says. */
  lemma ImagesSpec(s: State, q: ImageDto.ImagesQuery, ready: string)
    ensures ImagesFor(s, q, ready).Ok? <==> PageRows(s, q, ready).Ok?
    ensures ImagesFor(s, q, ready).Ok? ==>
              && |ImagesFor(s, q, ready).value| == |PageRows(s, q, ready).value|
              && forall k :: 0 <= k < |PageRows(s, q, ready).value| ==>
                   ImagesFor(s, q, ready).value[k] == Attach(s.completed, PageRows(s, q, ready).value[k], ready)
  {
  }

  /** The selection loses no row: on a first page at least as large as the
      table, every row with the status and matching the search is returned. */
  lemma ImagesComplete(s: State, q: ImageDto.ImagesQuery, ready: string, i: nat)
    requires q.page == 1 && q.limit >= |s.records|
    requires i < |s.records| && s.records[i].status == ready && Matches(s.records[i], q.search)
    ensures ImagesFor(s, q, ready).Ok?
    ensures exists k :: 0 <= k < |ImagesFor(s, q, ready).value| && ImagesFor(s, q, ready).value[k].record == s.records[i]
  {
    var sel := Selected(s.records, q.search, ready);
    var all := SortByCreated(sel, q.sort == ImageDto.Asc);
    assert FindWindow(all, 0, q.limit) == all;
    var views := AttachAll(s.completed, all, ready);
    assert s.records[i] in sel;
    assert s.records[i] in multiset(sel);
    assert s.records[i] in multiset(all);
    var k :| 0 <= k < |all| && all[k] == s.records[i];
    assert views[k].record == s.records[i];
  }

  /** How a search term is matched: a row is selected when the lower-cased
      term occurs in the lower-cased filename or description. */
  lemma SearchIgnoresCase(rec: ImageRecord, term: string)
    requires term != ""
    ensures Matches(rec, Some(term)) <==>
              Contains(Lower(rec.filename), Lower(term))
              || (rec.description.Some? && Contains(Lower(rec.description.value), Lower(term)))
  {
  }

  // ---------------------------------------------------------------------
  // deleteImageById and imageExists
  // ---------------------------------------------------------------------

  /** deleteImageById: "Image not found" for an unknown uuid; otherwise the
      row goes, then the thumbnail, whose removal failure is only logged. */
  function DeleteStep(s: State, uuid: string, removeError: Option<Thrown>): Step<Result<ImageRecord, Thrown>>
  {
    match IndexOf(s.records, uuid)
    case None => Step(s, Err(ImageNotFound))
    case Some(i) =>
      var s1 := s.(records := RemoveAt(s.records, i));
      if !ValidObjectName(uuid) || removeError.Some? then Step(s1, Ok(s.records[i]))
      else Step(s1.(completed := s1.completed - {uuid}), Ok(s.records[i]))
  }

  method DeleteImageById(w: World, uuid: string, removeError: Option<Thrown>) returns (r: Result<ImageRecord, Thrown>)
    modifies w
    ensures Step(w.Snapshot(), r) == DeleteStep(old(w.Snapshot()), uuid, removeError)
  {
    var i := IndexOf(w.records, uuid);
    if i.None? {
      return Err(ImageNotFound);
    }
    var deleted := w.records[i.value];
    w.records := RemoveAt(w.records, i.value);
    if ValidObjectName(uuid) && removeError.None? {
      w.completed := w.completed - {uuid};
    }
    r := Ok(deleted);
  }

  /** A missing uuid changes nothing; otherwise that row is gone and every
      other row stays; the upload bucket and topics are untouched, and the
      deletion succeeds whatever the bucket does. */
  lemma DeleteOutcome(s: State, uuid: string, removeError: Option<Thrown>)
    requires Valid(s)
    ensures var t := DeleteStep(s, uuid, removeError);
            && (t.out.Err? <==> forall i :: 0 <= i < |s.records| ==> s.records[i].uuid != uuid)
            && (t.out.Err? ==> t.state == s && t.out.error == ImageNotFound)
            && (t.out.Ok? ==> && t.out.value in s.records && t.out.value.uuid == uuid
                              && (forall i :: 0 <= i < |t.state.records| ==> t.state.records[i].uuid != uuid)
                              && (forall x :: x in s.records && x.uuid != uuid ==> x in t.state.records)
                              && |t.state.records| == |s.records| - 1)
            && t.state.uploads == s.uploads && t.state.tasks == s.tasks && t.state.completions == s.completions
            && t.state.collections == s.collections
  {
    match IndexOf(s.records, uuid)
    case None =>
    case Some(i) =>
      var r := RemoveAt(s.records, i);
      forall x | x in s.records && x.uuid != uuid ensures x in r {
        var k :| 0 <= k < |s.records| && s.records[k] == x;
        if k < i { assert r[k] == x; } else { assert r[k - 1] == x; }
      }
  }

  /** Deleting keeps the uuid column unique and the statuses known. */
  lemma DeleteKeepsInvariants(s: State, uuid: string, removeError: Option<Thrown>)
    requires Valid(s) && KnownStatuses(s.records)
    ensures Valid(DeleteStep(s, uuid, removeError).state)
    ensures KnownStatuses(DeleteStep(s, uuid, removeError).state.records)
  {
    if IndexOf(s.records, uuid).Some? {
      UniqueRemove(s.records, IndexOf(s.records, uuid).value);
    }
  }

  /** The number of rows with the uuid (`count({where: {uuid}})`). */
  function CountUuid(rs: seq<ImageRecord>, uuid: string): (n: nat)
    ensures n <= |rs|
    ensures n > 0 <==> exists i :: 0 <= i < |rs| && rs[i].uuid == uuid
  {
    if rs == [] then 0
    else
      assert forall i :: 1 <= i < |rs| ==> rs[i] == rs[1..][i - 1];
      (if rs[0].uuid == uuid then 1 else 0) + CountUuid(rs[1..], uuid)
  }

  /** imageExists: the count is positive. */
  function ImageExists(s: State, uuid: string): (r: bool)
    ensures r <==> FindImage(s.records, uuid).Some?
  {
    CountUuid(s.records, uuid) > 0
  }

  // ---------------------------------------------------------------------
  // The status mismatch
  // ---------------------------------------------------------------------

  /** No row ever carries "completed": the read side, as written, never
      attaches data and getImages never returns a row. */
  lemma CompletedNeverReached(s: State, uuid: string, q: ImageDto.ImagesQuery)
    requires KnownStatuses(s.records)
    ensures ImageById(s, uuid).Some? ==> ImageById(s, uuid).value.imageData.None?
    ensures Images(s, q).Ok? ==> Images(s, q).value == []
  {
    CompletedUnknown();
    if ImageById(s, uuid).Some? {
      var rec := ImageById(s, uuid).value.record;
      var k :| 0 <= k < |s.records| && s.records[k] == rec;
      assert KnownStatus(s.records[k].status);
    }
    SelectedNone(s.records, q.search, CompletedStatus);
  }

  /** "completed" is none of the statuses the pipeline writes. */
  lemma CompletedUnknown()
    ensures !KnownStatus(CompletedStatus)
  {
    assert CompletedStatus[0] == 'c' && SucceededStatus[0] == 's';
    assert |CompletedStatus| == 9 && |PendingStatus| == 7 && |FailedStatus| == 6;
  }

  /** Nothing is selected when no row has the status. */
  lemma {:induction false} SelectedNone(rs: seq<ImageRecord>, search: Option<string>, ready: string)
    requires forall k :: 0 <= k < |rs| ==> rs[k].status != ready
    ensures Selected(rs, search, ready) == []
  {
    if rs != [] {
      SelectedNone(rs[1..], search, ready);
    }
  }

  /** With the status handleCompletion writes, a row whose completion
      succeeded is returned with its thumbnail, which decodes to the bytes
      in the completed bucket. */
  lemma CorrectedAttachesAfterCompletion(s: State, c: Json.Json, now: int, u: string)
    requires Json.Get(c, "uuid") == Some(Json.JStr(u)) && IndexOf(s.records, u).Some?
    requires Json.Truthy(Json.Get(c, "success")) && u in s.completed && ValidObjectName(u)
    ensures var t := HandleCompletionStep(s, c, now, None).state;
            var v := ImageByIdCorrected(t, u);
            && v.Some? && v.value.imageData.Some?
            && Base64.ParseJpegDataUrl(v.value.imageData.value) == Some(s.completed[u])
  {
    var i := IndexOf(s.records, u).value;
    var t := HandleCompletionStep(s, c, now, None).state;
    IndexOfStable(s.records, i, ApplyCompletion(s.records[i], true, now));
    assert FindImage(t.records, u) == Some(t.records[i]);
  }
}
