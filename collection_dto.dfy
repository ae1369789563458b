/**
 * The zod schemas of the collection endpoints: name bounds, the JSON:API
 * relationship body and the listing query with its defaults.
 */
module CollectionDto {
  import opened Wrappers
  import opened Json
  import SharedSchemas
  import opened ImageDto
  import Strings

  const MinNameLength: int := 2
  const MaxNameLength: int := 100

  datatype CreateCollection = CreateCollection(name: string, description: Option<string>)
  datatype UpdateCollection = UpdateCollection(name: Option<string>, description: Option<string>)
  datatype CollectionSortKey = ByCreatedAt | ByUpdatedAt
  datatype CollectionsQuery = CollectionsQuery(page: int, limit: int, sort: SortOrder,
                                               sortBy: CollectionSortKey, search: Option<string>)

  /** zod's `.min(2).max(100)` on a string, counted in UTF-16 code units. */
  predicate ValidName(name: string)
  {
    MinNameLength <= Strings.Utf16Length(name) <= MaxNameLength
  }

  /** A name made only of characters above the Basic Multilingual Plane
      passes the bounds with 1 to 50 characters, not 2 to 100. */
  lemma AstralNameBounds(name: string)
    requires forall i :: 0 <= i < |name| ==> name[i] as int >= 0x1_0000
    ensures ValidName(name) <==> 1 <= |name| <= 50
  {
    Strings.AstralLength(name);
  }

  /** `CollectionUuidDto.parse`. */
  function ParseCollectionUuid(uuid: string): (r: Option<string>)
    ensures r.Some? <==> SharedSchemas.IsUuid(uuid)
    ensures r.Some? ==> r.value == uuid
  {
    if SharedSchemas.IsUuid(uuid) then Some(uuid) else None
  }

  /** `CreateCollectionDto.parse`: a name of 2 to 100 UTF-16 code units and an
      optional description. */
  function ParseCreateCollection(body: Json): (r: Option<CreateCollection>)
    ensures r.Some? <==> (exists n :: Get(body, "name") == Some(JStr(n)) && ValidName(n))
                         && OptionalString(Get(body, "description")).Some?
    ensures r.Some? ==> Get(body, "name") == Some(JStr(r.value.name))
                        && OptionalString(Get(body, "description")) == Some(r.value.description)
  {
    match (Get(body, "name"), OptionalString(Get(body, "description")))
    case (Some(JStr(n)), Some(d)) => if ValidName(n) then Some(CreateCollection(n, d)) else None
    case _ => None
  }

  /** `UpdateCollectionDto.parse`: both fields optional, but a name that is
      present is held to the same bounds. */
  function ParseUpdateCollection(body: Json): (r: Option<UpdateCollection>)
    ensures r.Some? ==> OptionalString(Get(body, "name")) == Some(r.value.name)
                        && OptionalString(Get(body, "description")) == Some(r.value.description)
                        && (r.value.name.Some? ==> ValidName(r.value.name.value))
    ensures r.None? <==> || OptionalString(Get(body, "name")).None?
                         || OptionalString(Get(body, "description")).None?
                         || (exists n :: Get(body, "name") == Some(JStr(n)) && !ValidName(n))
  {
    match (OptionalString(Get(body, "name")), OptionalString(Get(body, "description")))
    case (Some(n), Some(d)) =>
      if n.Some? && !ValidName(n.value) then None else Some(UpdateCollection(n, d))
    case _ => None
  }

  /** One element of a relationship body: `{type: "images", uuid: <UUID>}`. */
  function ParseImageLink(item: Json): (r: Option<string>)
    ensures r.Some? <==> Get(item, "type") == Some(JStr("images"))
                         && (exists u :: Get(item, "uuid") == Some(JStr(u)) && SharedSchemas.IsUuid(u))
    ensures r.Some? ==> Get(item, "uuid") == Some(JStr(r.value))
  {
    match (Get(item, "type"), Get(item, "uuid"))
    case (Some(JStr(t)), Some(JStr(u))) => if t == "images" && SharedSchemas.IsUuid(u) then Some(u) else None
    case _ => None
  }

  function ParseImageLinks(items: seq<Json>): (r: Option<seq<string>>)
    ensures r.Some? <==> forall i :: 0 <= i < |items| ==> ParseImageLink(items[i]).Some?
    ensures r.Some? ==> |r.value| == |items| &&
                        forall i :: 0 <= i < |items| ==> ParseImageLink(items[i]) == Some(r.value[i])
  {
    if items == [] then Some([])
    else
      match (ParseImageLink(items[0]), ParseImageLinks(items[1..]))
      case (Some(u), Some(us)) => Some([u] + us)
      case _ => None
  }

  /** `AddToCollectionDto.parse` and `DeleteFromCollectionDto.parse` (the two
      schemas are the same): the uuids of `data`, in order. */
  function ParseRelationship(body: Json): (r: Option<seq<string>>)
    ensures forall items :: Get(body, "data") == Some(JArr(items)) ==> r == ParseImageLinks(items)
    ensures (forall items :: Get(body, "data") != Some(JArr(items))) ==> r.None?
  {
    match Get(body, "data")
    case Some(JArr(items)) => ParseImageLinks(items)
    case _ => None
  }

  function ParseSortKey(v: Option<string>): (r: Option<CollectionSortKey>)
    ensures v.None? ==> r == Some(ByCreatedAt)
    ensures v.Some? ==> (r.Some? <==> v.value == "createdAt" || v.value == "updatedAt")
  {
    match v
    case None => Some(ByCreatedAt)
    case Some(s) =>
      if s == "createdAt" then Some(ByCreatedAt) else if s == "updatedAt" then Some(ByUpdatedAt) else None
  }

  /** `GetCollectionsQueryDto.parse`. */
  function ParseCollectionsQuery(q: QueryInput): (r: Option<CollectionsQuery>)
    ensures r.Some? <==> ParseSort(q.sort).Some? && ParseSortKey(q.sortBy).Some?
    ensures r.Some? ==> && r.value.page == (if q.page.Some? then q.page.value else DefaultPage)
                        && r.value.limit == (if q.limit.Some? then q.limit.value else DefaultLimit)
                        && Some(r.value.sort) == ParseSort(q.sort)
                        && Some(r.value.sortBy) == ParseSortKey(q.sortBy)
                        && r.value.search == q.search
  {
    match (ParseSort(q.sort), ParseSortKey(q.sortBy))
    case (Some(order), Some(key)) =>
      Some(CollectionsQuery(
        if q.page.Some? then q.page.value else DefaultPage,
        if q.limit.Some? then q.limit.value else DefaultLimit,
        order, key, q.search))
    case _ => None
  }

  lemma CollectionsQueryDefaults()
    ensures ParseCollectionsQuery(QueryInput(None, None, None, None, None)) ==
            Some(CollectionsQuery(1, 10, Desc, ByCreatedAt, None))
  {
  }

  /** A link of any other type is refused, and with it the whole body. */
  lemma OtherTypeRejected(items: seq<Json>, i: nat, t: string)
    requires i < |items| && Get(items[i], "type") == Some(JStr(t)) && t != "images"
    ensures ParseImageLinks(items).None?
  {
  }
}
