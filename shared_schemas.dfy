/**
 * The two broker message shapes shared by the API and the worker: the task
 * message on the tasks topic and the completion message on the completed
 * topic.  The schemas are what zod would accept; the consumers themselves only
 * cast the parsed JSON and never run these checks (see KafkaService and
 * ImageResize, which read fields with `Json.Get`).
 */
module SharedSchemas {
  import opened Wrappers
  import opened Json

  predicate IsHexDigit(c: char)
  {
    '0' <= c <= '9' || 'a' <= c <= 'f' || 'A' <= c <= 'F'
  }

  /** Positions of the four hyphens of a UUID. */
  predicate IsHyphenPosition(i: int)
  {
    i == 8 || i == 13 || i == 18 || i == 23
  }

  /** zod's `.uuid()`: 8-4-4-4-12 hexadecimal digits separated by hyphens. */
  predicate IsUuid(s: string)
  {
    && |s| == 36
    && forall i :: 0 <= i < 36 ==> if IsHyphenPosition(i) then s[i] == '-' else IsHexDigit(s[i])
  }

  /** `KafkaProcessImageDto`. */
  datatype ProcessImage = ProcessImage(uuid: string, startTime: int)

  /** `KafkaCompleteImageDto`. */
  datatype CompleteImage = CompleteImage(uuid: string, success: bool, error: Option<string>, processingTime: int)

  /** The object the API publishes, members in the order it writes them. */
  function ProcessImageJson(m: ProcessImage): (r: Json)
    ensures Get(r, "uuid") == Some(JStr(m.uuid))
    ensures Get(r, "startTime") == Some(JNum(m.startTime))
    ensures Get(r, "success") == None
  {
    var ms := [Member("uuid", JStr(m.uuid)), Member("startTime", JNum(m.startTime))];
    assert ms[..1] == [ms[0]] && ms[..0] == [];
    JObj(ms)
  }

  /** The object the worker publishes: uuid, success, processingTime and,
      on failure only, error. */
  function CompleteImageJson(m: CompleteImage): (r: Json)
    ensures Get(r, "uuid") == Some(JStr(m.uuid))
    ensures Get(r, "success") == Some(JBool(m.success))
    ensures Get(r, "processingTime") == Some(JNum(m.processingTime))
    ensures Get(r, "error") == if m.error.Some? then Some(JStr(m.error.value)) else None
  {
    var base := [Member("uuid", JStr(m.uuid)), Member("success", JBool(m.success)),
                 Member("processingTime", JNum(m.processingTime))];
    assert base[..2] == [base[0], base[1]] && base[..2][..1] == [base[0]] && base[..0] == [];
    match m.error
    case None => JObj(base)
    case Some(e) =>
      var ms := base + [Member("error", JStr(e))];
      assert ms[..3] == base;
      JObj(ms)
  }

  /** `KafkaProcessImageDto.parse`: an object (extra members are stripped)
      with a UUID string `uuid` and a number `startTime`. */
  function ParseProcessImage(j: Json): (r: Option<ProcessImage>)
    ensures r.Some? <==>
      (exists u, t :: Get(j, "uuid") == Some(JStr(u)) && IsUuid(u) && Get(j, "startTime") == Some(JNum(t)))
    ensures r.Some? ==> Get(j, "uuid") == Some(JStr(r.value.uuid)) && Get(j, "startTime") == Some(JNum(r.value.startTime))
  {
    match (Get(j, "uuid"), Get(j, "startTime"))
    case (Some(JStr(u)), Some(JNum(t))) => if IsUuid(u) then Some(ProcessImage(u, t)) else None
    case _ => None
  }

  /** `KafkaCompleteImageDto.parse`: `error` may be absent, but when present
      it must be a string (`null` is rejected). */
  function ParseCompleteImage(j: Json): (r: Option<CompleteImage>)
    ensures r.Some? ==> && IsUuid(r.value.uuid)
                        && Get(j, "uuid") == Some(JStr(r.value.uuid))
                        && Get(j, "success") == Some(JBool(r.value.success))
                        && Get(j, "processingTime") == Some(JNum(r.value.processingTime))
                        && Get(j, "error") == if r.value.error.Some? then Some(JStr(r.value.error.value)) else None
    ensures r.Some? <==> && (exists u :: Get(j, "uuid") == Some(JStr(u)) && IsUuid(u))
                         && (exists ok :: Get(j, "success") == Some(JBool(ok)))
                         && (exists t :: Get(j, "processingTime") == Some(JNum(t)))
                         && (Get(j, "error").None? || Get(j, "error").value.JStr?)
    ensures Get(j, "error") == Some(JNull) ==> r.None?
  {
    match (Get(j, "uuid"), Get(j, "success"), Get(j, "processingTime"), Get(j, "error"))
    case (Some(JStr(u)), Some(JBool(ok)), Some(JNum(t)), None) =>
      if IsUuid(u) then Some(CompleteImage(u, ok, None, t)) else None
    case (Some(JStr(u)), Some(JBool(ok)), Some(JNum(t)), Some(JStr(e))) =>
      if IsUuid(u) then Some(CompleteImage(u, ok, Some(e), t)) else None
    case _ => None
  }

  /** The task message as it travels: JSON text, read back by JSON.parse. */
  lemma ProcessImageRoundTrip(m: ProcessImage)
    requires IsUuid(m.uuid)
    ensures Parse(Stringify(ProcessImageJson(m))) == Some(ProcessImageJson(m))
    ensures ParseProcessImage(ProcessImageJson(m)) == Some(m)
  {
    ParseStringify(ProcessImageJson(m));
  }

  /** The completion message as it travels, with and without `error`. */
  lemma CompleteImageRoundTrip(m: CompleteImage)
    requires IsUuid(m.uuid)
    ensures Parse(Stringify(CompleteImageJson(m))) == Some(CompleteImageJson(m))
    ensures ParseCompleteImage(CompleteImageJson(m)) == Some(m)
  {
    ParseStringify(CompleteImageJson(m));
  }
}
