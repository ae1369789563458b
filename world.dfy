/**
 * The stores the pipeline works on: the image table and the collection
 * table (Prisma), the upload and completed buckets (MinIO), and the tasks
 * and completed topics (Kafka).  Each source operation that changes them is a
 * method on a `World` object, specified by a function on `State`, the value
 * that `Snapshot()` returns.
 */
module World {
  import opened Wrappers
  import opened Bytes
  import Strings

  /** A row of the image table (`ThumbnailImage`); times are milliseconds. */
  datatype ImageRecord = ImageRecord(
    uuid: string,
    filename: string,
    description: Option<string>,
    status: string,
    createdAt: int,
    completedAt: int,
    collectionId: Option<string>)

  /** A row of the collection table. */
  datatype Collection = Collection(
    uuid: string,
    name: string,
    description: Option<string>,
    createdAt: int,
    updatedAt: int)

  /** A Kafka message: key and value, each possibly absent. */
  datatype BrokerMessage = BrokerMessage(key: Option<string>, value: Option<string>)

  /** A thrown JavaScript value: an `Error` (always truthy) or anything else,
      with its `String(...)` text and its truthiness. */
  datatype Thrown = Error(name: string, message: string) | NonError(text: string, truthy: bool)

  /** What JSON.parse throws on text that is not JSON. */
  const ParseFailure: Thrown := Error("SyntaxError", "Unexpected token")

  /** What a consumer's `eachMessage` handler did with one message: skipped
      it, handled it, or caught and logged what was thrown. */
  datatype Handling = Skipped | Handled | Logged(error: Thrown)

  const PendingStatus: string := "pending"
  const SucceededStatus: string := "succeeded"
  const FailedStatus: string := "failed"

  /** The statuses the pipeline writes. */
  predicate KnownStatus(status: string)
  {
    status == PendingStatus || status == SucceededStatus || status == FailedStatus
  }

  /** Every row carries a status the pipeline writes. */
  predicate KnownStatuses(rs: seq<ImageRecord>)
  {
    forall i :: 0 <= i < |rs| ==> KnownStatus(rs[i].status)
  }

  /** Prisma's error for `update`/`delete` of a missing row (code P2025). */
  const RecordNotFound: Thrown := Error("PrismaClientKnownRequestError", "P2025")
  /** Prisma's error for `create` with a uuid already taken (code P2002). */
  const UniqueViolation: Thrown := Error("PrismaClientKnownRequestError", "P2002")
  /** Prisma's error for a `collectionId` naming no collection (code P2003). */
  const ForeignKeyViolation: Thrown := Error("PrismaClientKnownRequestError", "P2003")
  /** Prisma's error for a unique `where` whose uuid is missing or not a string. */
  const InvalidWhere: Thrown := Error("PrismaClientValidationError", "where")
  /** MinIO's error for reading an object that is not there. */
  const NoSuchKey: Thrown := Error("S3Error", "The specified key does not exist.")
  /** MinIO's error for an object name that is not a string of 1 to 1024 code units. */
  const InvalidObjectName: Thrown := Error("InvalidObjectNameError", "Invalid object name")

  /** MinIO's `isValidObjectName`: a name of 1 to 1024 UTF-16 code units. */
  predicate ValidObjectName(name: string)
  {
    1 <= Strings.Utf16Length(name) <= 1024
  }

  /** Everything the stores hold at one moment. */
  datatype State = State(
    records: seq<ImageRecord>,
    collections: seq<Collection>,
    uploads: map<string, Bytes>,
    completed: map<string, Bytes>,
    tasks: seq<BrokerMessage>,
    completions: seq<BrokerMessage>)

  /** A specification step: the state after an operation and what it returned. */
  datatype Step<T> = Step(state: State, out: T)

  const Empty: State := State([], [], map[], map[], [], [])

  /** The uuid column is unique in both tables. */
  predicate UniqueImages(rs: seq<ImageRecord>)
  {
    forall i, j :: 0 <= i < j < |rs| ==> rs[i].uuid != rs[j].uuid
  }

  predicate UniqueCollections(cs: seq<Collection>)
  {
    forall i, j :: 0 <= i < j < |cs| ==> cs[i].uuid != cs[j].uuid
  }

  predicate Valid(s: State)
  {
    UniqueImages(s.records) && UniqueCollections(s.collections)
  }

  /** The row with the given uuid, by position. */
  function IndexOf(rs: seq<ImageRecord>, uuid: string): (r: Option<nat>)
    ensures r.Some? ==> r.value < |rs| && rs[r.value].uuid == uuid
    ensures r.None? ==> forall i :: 0 <= i < |rs| ==> rs[i].uuid != uuid
  {
    if rs == [] then None
    else if rs[|rs| - 1].uuid == uuid then Some(|rs| - 1)
    else IndexOf(rs[..|rs| - 1], uuid)
  }

  function CollectionIndexOf(cs: seq<Collection>, uuid: string): (r: Option<nat>)
    ensures r.Some? ==> r.value < |cs| && cs[r.value].uuid == uuid
    ensures r.None? ==> forall i :: 0 <= i < |cs| ==> cs[i].uuid != uuid
  {
    if cs == [] then None
    else if cs[|cs| - 1].uuid == uuid then Some(|cs| - 1)
    else CollectionIndexOf(cs[..|cs| - 1], uuid)
  }

  /** `findUnique({where: {uuid}})`. */
  function FindImage(rs: seq<ImageRecord>, uuid: string): (r: Option<ImageRecord>)
    ensures r.Some? ==> r.value in rs && r.value.uuid == uuid
    ensures r.None? ==> forall i :: 0 <= i < |rs| ==> rs[i].uuid != uuid
  {
    match IndexOf(rs, uuid)
    case None => None
    case Some(i) => Some(rs[i])
  }

  /** Removing a row keeps the others in order. */
  function RemoveAt<T>(xs: seq<T>, i: nat): (r: seq<T>)
    requires i < |xs|
    ensures |r| == |xs| - 1
    ensures forall k :: 0 <= k < i ==> r[k] == xs[k]
    ensures forall k :: i <= k < |r| ==> r[k] == xs[k + 1]
  {
    xs[..i] + xs[i + 1..]
  }

  lemma UniqueAppend(rs: seq<ImageRecord>, x: ImageRecord)
    requires UniqueImages(rs) && IndexOf(rs, x.uuid).None?
    ensures UniqueImages(rs + [x])
  {
  }

  lemma UniqueUpdate(rs: seq<ImageRecord>, i: nat, x: ImageRecord)
    requires UniqueImages(rs) && i < |rs| && rs[i].uuid == x.uuid
    ensures UniqueImages(rs[i := x])
  {
  }

  lemma UniqueRemove(rs: seq<ImageRecord>, i: nat)
    requires UniqueImages(rs) && i < |rs|
    ensures UniqueImages(RemoveAt(rs, i))
  {
  }

  /** Two tables whose rows carry the same uuids, position by position. */
  predicate SameUuids(a: seq<ImageRecord>, b: seq<ImageRecord>)
  {
    |a| == |b| && forall k :: 0 <= k < |a| ==> a[k].uuid == b[k].uuid
  }

  /** A lookup by uuid sees only the uuid column. */
  lemma {:induction false} IndexOfSameUuids(a: seq<ImageRecord>, b: seq<ImageRecord>, uuid: string)
    requires SameUuids(a, b)
    ensures IndexOf(a, uuid) == IndexOf(b, uuid)
    decreases |a|
  {
    if a != [] {
      var n := |a| - 1;
      assert SameUuids(a[..n], b[..n]);
      IndexOfSameUuids(a[..n], b[..n], uuid);
    }
  }

  /** Every `collectionId` names a collection of the table (the foreign key). */
  predicate Linked(s: State)
  {
    forall k :: 0 <= k < |s.records| && s.records[k].collectionId.Some? ==>
      CollectionIndexOf(s.collections, s.records[k].collectionId.value).Some?
  }

  /** The stores as one mutable object. */
  class World {
    var records: seq<ImageRecord>
    var collections: seq<Collection>
    var uploads: map<string, Bytes>
    var completed: map<string, Bytes>
    var tasks: seq<BrokerMessage>
    var completions: seq<BrokerMessage>

    function Snapshot(): State
      reads this
    {
      State(records, collections, uploads, completed, tasks, completions)
    }

    constructor ()
      ensures Snapshot() == Empty
    {
      records, collections := [], [];
      uploads, completed := map[], map[];
      tasks, completions := [], [];
    }
  }
}
