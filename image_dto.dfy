/**
 * The zod schemas of the image endpoints, as validators from the parsed
 * request (JSON body or query fields) to typed values, filling in defaults.
 */
module ImageDto {
  import opened Wrappers
  import opened Json
  import SharedSchemas
  import Upload

  datatype SortOrder = Asc | Desc

  /** `ImageDto`: what `createProcessingTask` receives. */
  datatype ImageDto = ImageDto(uuid: string, filename: string, description: Option<string>)

  /** `GetImagesQueryDto` after defaults; sortBy has the single value createdAt. */
  datatype ImagesQuery = ImagesQuery(page: int, limit: int, sort: SortOrder, search: Option<string>)

  /** The query fields as they arrive; `None` is an absent field.  Numbers
      are already coerced (`z.coerce.number`). */
  datatype QueryInput = QueryInput(page: Option<int>, limit: Option<int>, sort: Option<string>,
                                   sortBy: Option<string>, search: Option<string>)

  const DefaultPage: int := 1
  const DefaultLimit: int := 10

  const PresignedExtensions: seq<string> := ["jpg", "jpeg", "png", "gif", "avif", "tiff", "webp", "svg"]

  /** `z.string().optional()` on a member: absent is fine, a string is kept,
      anything else (including null) fails. */
  function OptionalString(v: Option<Json>): (r: Option<Option<string>>)
    ensures r == Some(None) <==> v.None?
    ensures forall s :: r == Some(Some(s)) <==> v == Some(JStr(s))
  {
    match v
    case None => Some(None)
    case Some(JStr(s)) => Some(Some(s))
    case Some(_) => None
  }

  /** `ImageDto.parse`. */
  function ParseImageDto(body: Json): (r: Option<ImageDto>)
    ensures r.Some? ==> && SharedSchemas.IsUuid(r.value.uuid)
                        && Get(body, "uuid") == Some(JStr(r.value.uuid))
                        && Get(body, "filename") == Some(JStr(r.value.filename))
                        && OptionalString(Get(body, "description")) == Some(r.value.description)
    ensures r.None? ==> || !(exists u :: Get(body, "uuid") == Some(JStr(u)) && SharedSchemas.IsUuid(u))
                        || !(exists f :: Get(body, "filename") == Some(JStr(f)))
                        || OptionalString(Get(body, "description")).None?
  {
    match (Get(body, "uuid"), Get(body, "filename"), OptionalString(Get(body, "description")))
    case (Some(JStr(u)), Some(JStr(f)), Some(d)) =>
      if SharedSchemas.IsUuid(u) then Some(ImageDto(u, f, d)) else None
    case _ => None
  }

  /** `ImageIdDto.parse` on the uuid route parameter. */
  function ParseImageId(uuid: string): (r: Option<string>)
    ensures r.Some? <==> SharedSchemas.IsUuid(uuid)
    ensures r.Some? ==> r.value == uuid
  {
    if SharedSchemas.IsUuid(uuid) then Some(uuid) else None
  }

  /** `PresignedUploadDto.parse`: the extension must be one of the enum values. */
  function ParsePresignedUpload(extension: string): (r: Option<string>)
    ensures r.Some? <==> extension in PresignedExtensions
    ensures r.Some? ==> r.value == extension
  {
    if extension in PresignedExtensions then Some(extension) else None
  }

  function ParseSort(v: Option<string>): (r: Option<SortOrder>)
    ensures v.None? ==> r == Some(Desc)
    ensures v.Some? ==> (r.Some? <==> v.value == "asc" || v.value == "desc")
    ensures r == Some(Asc) <==> v == Some("asc")
  {
    match v
    case None => Some(Desc)
    case Some(s) => if s == "asc" then Some(Asc) else if s == "desc" then Some(Desc) else None
  }

  /** `GetImagesQueryDto.parse`. */
  function ParseImagesQuery(q: QueryInput): (r: Option<ImagesQuery>)
    ensures r.Some? <==> ParseSort(q.sort).Some? && (q.sortBy.None? || q.sortBy == Some("createdAt"))
    ensures r.Some? ==> && r.value.page == (if q.page.Some? then q.page.value else DefaultPage)
                        && r.value.limit == (if q.limit.Some? then q.limit.value else DefaultLimit)
                        && Some(r.value.sort) == ParseSort(q.sort)
                        && r.value.search == q.search
  {
    match ParseSort(q.sort)
    case None => None
    case Some(order) =>
      if q.sortBy.Some? && q.sortBy.value != "createdAt" then None
      else
        Some(ImagesQuery(
          if q.page.Some? then q.page.value else DefaultPage,
          if q.limit.Some? then q.limit.value else DefaultLimit,
          order,
          q.search))
  }

  /** With no query fields at all: page 1, limit 10, newest first. */
  lemma ImagesQueryDefaults()
    ensures ParseImagesQuery(QueryInput(None, None, None, None, None)) == Some(ImagesQuery(1, 10, Desc, None))
  {
  }

  /** A presigned upload accepts exactly the extensions multer's filter lets
      through, written without the dot. */
  lemma PresignedMatchesUploadFilter(e: string)
    ensures e in PresignedExtensions <==> "." + e in Upload.AllowedExtensions
  {
    var allowed := Upload.AllowedExtensions;
    var names := PresignedExtensions;
    assert allowed[0] == "." + names[0] && allowed[1] == "." + names[1];
    assert allowed[2] == "." + names[2] && allowed[3] == "." + names[3];
    assert allowed[4] == "." + names[6] && allowed[5] == "." + names[7];
    assert allowed[6] == "." + names[4] && allowed[7] == "." + names[5];
    if "." + e in allowed {
      var i :| 0 <= i < |allowed| && allowed[i] == "." + e;
      assert e == ("." + e)[1..];
    }
  }
}
