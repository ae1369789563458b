/**
 * The worker: for each task message, read the staged upload, resize it,
 * store the result in the completed bucket and publish one completion
 * message; the resize itself (sharp) is an oracle.
 */
module ImageResize {
  import opened Wrappers
  import opened Json
  import opened Bytes
  import opened World
  import SharedSchemas

  /** The text of an unknown failure in the completion message. */
  const UnknownError: string := "Unknown error"

  /** Reading `imageData.uuid` (or `.startTime`) when the parsed task is `null`. */
  const NullTask: Thrown := Error("TypeError", "Cannot read properties of null")

  type ChunkSize = n: nat | n > 0 witness 1

  /** What the outside world does while the worker handles one task: the
      clock, how the store streams the object, what sharp returns, whether
      putObject throws, and whether the broker accepts the completion. */
  datatype WorkerEnv = WorkerEnv(
    now: int,
    chunkSize: ChunkSize,
    transform: Bytes -> Result<Bytes, Thrown>,
    putError: Option<Thrown>,
    sendOk: bool)

  /** `imageData.uuid` when it is a string. */
  function TaskUuid(task: Json): (r: Option<string>)
    ensures r.Some? ==> Get(task, "uuid") == Some(JStr(r.value))
    ensures r.None? ==> forall u :: Get(task, "uuid") != Some(JStr(u))
  {
    match Get(task, "uuid")
    case Some(JStr(u)) => Some(u)
    case _ => None
  }

  /** `Date.now() - imageData.startTime` as it lands in the JSON text: the
      subtraction coerces startTime with `ToNumber`; a missing field, NaN
      and ±Infinity are written as `null` by JSON.stringify. */
  function Elapsed(now: int, startTime: Option<Json>): (r: Json)
    ensures startTime.Some? && startTime.value.JNum? ==> r == JNum(now - startTime.value.n)
    ensures startTime.Some? && ToNumber(startTime.value).Some? ==> r == JNum(now - ToNumber(startTime.value).value)
    ensures startTime.None? || ToNumber(startTime.value).None? ==> r == JNull
  {
    match startTime
    case None => JNull
    case Some(v) =>
      match ToNumber(v)
      case Some(t) => JNum(now - t)
      case None => JNull
  }

  /** What coercion makes of the startTime values a cast lets through: numeric
      text counts as its number, `null`, `false` and `[]` as 0, `true` as 1,
      and an object or a missing field is not a number. */
  lemma ElapsedCoerces(now: int, t: int)
    ensures Elapsed(now, Some(JStr(IntText(t)))) == JNum(now - t)
    ensures Elapsed(now, Some(JArr([JStr(IntText(t))]))) == JNum(now - t)
    ensures Elapsed(now, Some(JNull)) == JNum(now) && Elapsed(now, Some(JArr([]))) == JNum(now)
    ensures Elapsed(now, Some(JBool(true))) == JNum(now - 1)
    ensures Elapsed(now, Some(JObj([]))) == JNull && Elapsed(now, None) == JNull
  {
    IntTextToNumber(t);
  }

  /** `error instanceof Error ? error.message : 'Unknown error'`. */
  function ErrorText(e: Thrown): (r: string)
    ensures e.Error? ==> r == e.message
    ensures e.NonError? ==> r == UnknownError
  {
    if e.Error? then e.message else UnknownError
  }

  /** The completion object literal; a missing uuid is dropped by JSON.stringify. */
  function CompletionValue(uuid: Option<Json>, success: bool, processingTime: Json, error: Option<string>): (r: Json)
    ensures r.JObj?
  {
    ObjectOf([("uuid", uuid), ("success", Some(JBool(success))), ("processingTime", Some(processingTime)),
              ("error", if error.Some? then Some(JStr(error.value)) else None)])
  }

  /** The record sendMessage hands to the producer: key `message.uuid`. */
  function CompletionRecord(message: Json): (r: BrokerMessage)
    ensures r.value == Some(Stringify(message))
  {
    BrokerMessage(match Get(message, "uuid") case Some(JStr(u)) => Some(u) case _ => None,
                  Some(Stringify(message)))
  }

  /** getObject, buffering, sharp and putObject: the resized bytes, or the
      first error thrown. */
  function Processed(s: State, task: Json, env: WorkerEnv): (r: Result<Bytes, Thrown>)
  {
    match TaskUuid(task)
    case None => Err(InvalidObjectName)
    case Some(u) =>
      if !ValidObjectName(u) then Err(InvalidObjectName)
      else if u !in s.uploads then Err(NoSuchKey)
      else
        match env.transform(s.uploads[u])
        case Err(e) => Err(e)
        case Ok(out) => if env.putError.Some? then Err(env.putError.value) else Ok(out)
  }

  /** The completion message resizeImage builds, success or failure. */
  function CompletionFor(s: State, task: Json, env: WorkerEnv): Json
  {
    var p := Processed(s, task, env);
    CompletionValue(Get(task, "uuid"), p.Ok?, Elapsed(env.now, Get(task, "startTime")),
                    if p.Ok? then None else Some(ErrorText(p.error)))
  }

  /** resizeImage on a state: what it stores, what it publishes, and what it
      returns or rethrows. */
  function ResizeStep(s: State, task: Json, env: WorkerEnv): Step<Result<(), Thrown>>
  {
    if task == JNull then Step(s, Err(NullTask))
    else
      var p := Processed(s, task, env);
      var s1 := if p.Ok? then s.(completed := s.completed[TaskUuid(task).value := p.value]) else s;
      var s2 := if env.sendOk then s1.(completions := s1.completions + [CompletionRecord(CompletionFor(s, task, env))]) else s1;
      Step(s2, if p.Ok? then Ok(()) else Err(p.error))
  }

  /** sendMessage: a failed send is logged and dropped, never thrown. */
  method SendMessage(w: World, message: Json, sendOk: bool)
    modifies w
    ensures w.Snapshot() == old(w.Snapshot()).(completions := old(w.completions) + if sendOk then [CompletionRecord(message)] else [])
  {
    if sendOk {
      w.completions := w.completions + [CompletionRecord(message)];
    }
  }

  method ResizeImage(w: World, task: Json, env: WorkerEnv) returns (r: Result<(), Thrown>)
    modifies w
    ensures Step(w.Snapshot(), r) == ResizeStep(old(w.Snapshot()), task, env)
  {
    if task == JNull {
      return Err(NullTask);
    }
    ghost var s := w.Snapshot();
    var failure: Option<Thrown> := None;
    var name := TaskUuid(task);
    if name.None? || !ValidObjectName(name.value) {
      failure := Some(InvalidObjectName);
    } else if name.value !in w.uploads {
      failure := Some(NoSuchKey);
    } else {
      var u := name.value;
      var buffer := ReadAll(Chunks(w.uploads[u], env.chunkSize));
      ConcatChunks(w.uploads[u], env.chunkSize);
      var resized := env.transform(buffer);
      if resized.Err? {
        failure := Some(resized.error);
      } else if env.putError.Some? {
        failure := env.putError;
      } else {
        w.completed := w.completed[u := resized.value];
      }
    }
    assert failure.None? <==> Processed(s, task, env).Ok?;
    var message := CompletionValue(Get(task, "uuid"), failure.None?, Elapsed(env.now, Get(task, "startTime")),
                                   if failure.None? then None else Some(ErrorText(failure.value)));
    assert message == CompletionFor(s, task, env);
    SendMessage(w, message, env.sendOk);
    r := if failure.None? then Ok(()) else Err(failure.value);
  }

  // ---------------------------------------------------------------------
  // Properties of resizeImage
  // ---------------------------------------------------------------------

  /** Every member of the completion literal is found by its key. */
  lemma CompletionValueFields(uuid: Option<Json>, success: bool, processingTime: Json, error: Option<string>)
    ensures var m := CompletionValue(uuid, success, processingTime, error);
            && Get(m, "uuid") == uuid
            && Get(m, "success") == Some(JBool(success))
            && Get(m, "processingTime") == Some(processingTime)
            && Get(m, "error") == if error.Some? then Some(JStr(error.value)) else None
  {
    var tail := [Member("success", JBool(success)), Member("processingTime", processingTime)];
    var last := if error.Some? then [Member("error", JStr(error.value))] else [];
    var ms := (if uuid.Some? then [Member("uuid", uuid.value)] else []) + tail + last;
    CompletionMembers(uuid, success, processingTime, error);
    LookupKeys(ms, uuid, success, processingTime, error);
  }

  /** The members JSON.stringify writes for the completion literal, in order. */
  lemma CompletionMembers(uuid: Option<Json>, success: bool, processingTime: Json, error: Option<string>)
    ensures CompletionValue(uuid, success, processingTime, error) ==
            JObj((if uuid.Some? then [Member("uuid", uuid.value)] else [])
                 + [Member("success", JBool(success)), Member("processingTime", processingTime)]
                 + (if error.Some? then [Member("error", JStr(error.value))] else []))
  {
    var e := if error.Some? then Some(JStr(error.value)) else None;
    var fields := [("uuid", uuid), ("success", Some(JBool(success))), ("processingTime", Some(processingTime)), ("error", e)];
    var last := if error.Some? then [Member("error", JStr(error.value))] else [];
    assert fields[1..][1..][1..][1..] == [];
    assert ObjectOf(fields[1..][1..][1..]) == JObj(last);
    assert ObjectOf(fields[1..][1..]) == JObj([Member("processingTime", processingTime)] + last);
    assert ObjectOf(fields[1..]) == JObj([Member("success", JBool(success)), Member("processingTime", processingTime)] + last);
  }

  lemma LookupKeys(ms: seq<Member>, uuid: Option<Json>, success: bool, processingTime: Json, error: Option<string>)
    requires ms == (if uuid.Some? then [Member("uuid", uuid.value)] else [])
                   + [Member("success", JBool(success)), Member("processingTime", processingTime)]
                   + (if error.Some? then [Member("error", JStr(error.value))] else [])
    ensures Lookup(ms, "uuid") == uuid
    ensures Lookup(ms, "success") == Some(JBool(success))
    ensures Lookup(ms, "processingTime") == Some(processingTime)
    ensures Lookup(ms, "error") == if error.Some? then Some(JStr(error.value)) else None
  {
    var b := BaseMembers(uuid, success, processingTime);
    LookupBase(uuid, success, processingTime);
    if error.Some? {
      var e := Member("error", JStr(error.value));
      assert ms == b + [e];
      LookupSnoc(b, e, "uuid");
      LookupSnoc(b, e, "success");
      LookupSnoc(b, e, "processingTime");
      LookupSnoc(b, e, "error");
    } else {
      assert ms == b;
    }
  }

  /** The completion members before the optional error. */
  function BaseMembers(uuid: Option<Json>, success: bool, processingTime: Json): seq<Member>
  {
    (if uuid.Some? then [Member("uuid", uuid.value)] else [])
    + [Member("success", JBool(success)), Member("processingTime", processingTime)]
  }

  lemma LookupBase(uuid: Option<Json>, success: bool, processingTime: Json)
    ensures var b := BaseMembers(uuid, success, processingTime);
            && Lookup(b, "uuid") == uuid
            && Lookup(b, "success") == Some(JBool(success))
            && Lookup(b, "processingTime") == Some(processingTime)
            && Lookup(b, "error") == None
  {
    var head := if uuid.Some? then [Member("uuid", uuid.value)] else [];
    var s := Member("success", JBool(success));
    var p := Member("processingTime", processingTime);
    var a := head + [s];
    assert BaseMembers(uuid, success, processingTime) == a + [p];
    if uuid.Some? {
      LookupSnoc([], head[0], "uuid");
      LookupSnoc([], head[0], "error");
      assert [] + [head[0]] == head;
    }
    LookupSnoc(head, s, "uuid");
    LookupSnoc(head, s, "success");
    LookupSnoc(head, s, "error");
    LookupSnoc(a, p, "uuid");
    LookupSnoc(a, p, "success");
    LookupSnoc(a, p, "processingTime");
    LookupSnoc(a, p, "error");
  }

  /** Appending a member shadows the earlier members with its key and no
      others. */
  lemma LookupSnoc(ms: seq<Member>, m: Member, key: string)
    ensures Lookup(ms + [m], key) == if m.key == key then Some(m.value) else Lookup(ms, key)
  {
    assert (ms + [m])[..|ms|] == ms;
  }

  /** With a string uuid and a numeric startTime, the worker writes exactly
      the completion shape of the shared schema. */
  lemma CompletionValueIsSchema(u: string, success: bool, t: int, error: Option<string>)
    ensures CompletionValue(Some(JStr(u)), success, JNum(t), error) ==
            SharedSchemas.CompleteImageJson(SharedSchemas.CompleteImage(u, success, error, t))
  {
    CompletionMembers(Some(JStr(u)), success, JNum(t), error);
    var base := [Member("uuid", JStr(u)), Member("success", JBool(success)), Member("processingTime", JNum(t))];
    assert [Member("uuid", JStr(u))] + [Member("success", JBool(success)), Member("processingTime", JNum(t))] == base;
    if error.None? {
      assert base + [] == base;
    }
  }

  /** sendMessage is called exactly once per call that gets past reading the
      task (a null task throws first); the message reaches the topic exactly
      when the broker accepts it. */
  lemma ResizeSendsOnce(s: State, task: Json, env: WorkerEnv)
    ensures var t := ResizeStep(s, task, env).state;
            |t.completions| == |s.completions| + (if env.sendOk && task != JNull then 1 else 0)
            && t.completions[..|s.completions|] == s.completions
  {
  }

  /** The published completion carries the task's uuid, success exactly when
      every step succeeded, the elapsed time, and the error text otherwise;
      its text parses back to that object. */
  lemma ResizeMessage(s: State, task: Json, env: WorkerEnv)
    requires env.sendOk && task != JNull
    ensures var t := ResizeStep(s, task, env);
            var p := Processed(s, task, env);
            var sent := t.state.completions[|s.completions|];
            && sent.value.Some?
            && Parse(sent.value.value) == Some(CompletionFor(s, task, env))
            && Get(CompletionFor(s, task, env), "uuid") == Get(task, "uuid")
            && Get(CompletionFor(s, task, env), "success") == Some(JBool(t.out.Ok?))
            && Get(CompletionFor(s, task, env), "processingTime") == Some(Elapsed(env.now, Get(task, "startTime")))
            && Get(CompletionFor(s, task, env), "error") == (if p.Ok? then None else Some(JStr(ErrorText(p.error))))
            && (TaskUuid(task).Some? ==> sent.key == TaskUuid(task))
  {
    var p := Processed(s, task, env);
    CompletionValueFields(Get(task, "uuid"), p.Ok?, Elapsed(env.now, Get(task, "startTime")),
                          if p.Ok? then None else Some(ErrorText(p.error)));
    ParseStringify(CompletionFor(s, task, env));
  }

  /** resizeImage succeeds exactly when the uuid names a stored upload, sharp
      returns, and putObject does not throw; the resize sees the object's
      bytes exactly as stored. */
  lemma ResizeSucceedsIff(s: State, task: Json, env: WorkerEnv)
    ensures ResizeStep(s, task, env).out.Ok? <==>
              task != JNull && exists u :: && TaskUuid(task) == Some(u) && ValidObjectName(u) && u in s.uploads
                                           && env.transform(s.uploads[u]).Ok? && env.putError.None?
  {
  }

  /** The completed bucket gets the resized bytes under the task uuid only on
      success; the upload bucket, the tables and the tasks topic are only read. */
  lemma ResizeStores(s: State, task: Json, env: WorkerEnv)
    ensures var t := ResizeStep(s, task, env);
            && t.state.uploads == s.uploads && t.state.records == s.records
            && t.state.collections == s.collections && t.state.tasks == s.tasks
            && (t.out.Ok? ==> exists u :: TaskUuid(task) == Some(u) && u in s.uploads &&
                                          t.state.completed == s.completed[u := env.transform(s.uploads[u]).value])
            && (t.out.Err? ==> t.state.completed == s.completed)
  {
  }

  /** A failed resize still reports: a missing upload yields a completion
      with success false and the store's message. */
  lemma MissingUploadReported(s: State, task: Json, env: WorkerEnv, u: string)
    requires TaskUuid(task) == Some(u) && ValidObjectName(u) && u !in s.uploads
    ensures ResizeStep(s, task, env).out == Err(NoSuchKey)
    ensures Get(CompletionFor(s, task, env), "error") == Some(JStr(NoSuchKey.message))
    ensures Get(CompletionFor(s, task, env), "success") == Some(JBool(false))
  {
    CompletionValueFields(Get(task, "uuid"), false, Elapsed(env.now, Get(task, "startTime")), Some(NoSuchKey.message));
  }

  // ---------------------------------------------------------------------
  // The tasks-topic consumer (main's eachMessage)
  // ---------------------------------------------------------------------

  /** One message of the tasks topic and the world around its handling. */
  datatype TaskDelivery = TaskDelivery(message: BrokerMessage, env: WorkerEnv)

  /** eachMessage: skip an absent or empty value; otherwise parse, read
      `startTime` for the log (which throws on `null`), and resize, catching
      and logging whatever is thrown. */
  function TaskMessageStep(s: State, d: TaskDelivery): Step<Handling>
  {
    var value := d.message.value;
    if value.None? || value.value == "" then Step(s, Skipped)
    else
      match Parse(value.value)
      case None => Step(s, Logged(ParseFailure))
      case Some(task) =>
        if task == JNull then Step(s, Logged(NullTask))
        else
          var st := ResizeStep(s, task, d.env);
          Step(st.state, if st.out.Ok? then Handled else Logged(st.out.error))
  }

  method WorkerEachMessage(w: World, d: TaskDelivery) returns (h: Handling)
    modifies w
    ensures Step(w.Snapshot(), h) == TaskMessageStep(old(w.Snapshot()), d)
  {
    var value := d.message.value;
    if value.None? || value.value == "" {
      return Skipped;
    }
    var parsed := Parse(value.value);
    if parsed.None? {
      return Logged(ParseFailure);
    }
    if parsed.value == JNull {
      return Logged(NullTask);
    }
    var r := ResizeImage(w, parsed.value, d.env);
    h := if r.Ok? then Handled else Logged(r.error);
  }

  /** The state after the worker has seen each task in turn. */
  /** What each message is handled as, each in the state the ones before it
      left. */
  function TaskRunLog(s: State, ds: seq<TaskDelivery>): (log: seq<Handling>)
    ensures |log| == |ds|
    decreases |ds|
  {
    if ds == [] then [] else [TaskMessageStep(s, ds[0]).out] + TaskRunLog(TaskMessageStep(s, ds[0]).state, ds[1..])
  }

  function TaskRunState(s: State, ds: seq<TaskDelivery>): State
    decreases |ds|
  {
    if ds == [] then s else TaskRunState(TaskMessageStep(s, ds[0]).state, ds[1..])
  }

  /** `consumerTasks.run`: one message at a time; a rethrown failure is caught
      by the handler and the next message is still processed. */
  method WorkerRun(w: World, ds: seq<TaskDelivery>) returns (log: seq<Handling>)
    modifies w
    ensures w.Snapshot() == TaskRunState(old(w.Snapshot()), ds)
    ensures log == TaskRunLog(old(w.Snapshot()), ds)
  {
    log := [];
    var i := 0;
    while i < |ds|
      invariant 0 <= i <= |ds| && |log| == i
      invariant TaskRunState(old(w.Snapshot()), ds) == TaskRunState(w.Snapshot(), ds[i..])
      invariant TaskRunLog(old(w.Snapshot()), ds) == log + TaskRunLog(w.Snapshot(), ds[i..])
    {
      ghost var s0 := w.Snapshot();
      RunStep(s0, ds[i..]);
      assert ds[i..][1..] == ds[i + 1..];
      var h := WorkerEachMessage(w, ds[i]);
      log := log + [h];
      i := i + 1;
    }
  }

  /** One message of a run: its handling, then the run of the rest. */
  lemma RunStep(s: State, ds: seq<TaskDelivery>)
    requires ds != []
    ensures TaskRunState(s, ds) == TaskRunState(TaskMessageStep(s, ds[0]).state, ds[1..])
    ensures TaskRunLog(s, ds) == [TaskMessageStep(s, ds[0]).out] + TaskRunLog(TaskMessageStep(s, ds[0]).state, ds[1..])
  {
  }

  /** An empty value, text that is not JSON, or a `null` task publishes no
      completion and changes nothing. */
  lemma UnusableTaskIgnored(s: State, d: TaskDelivery)
    requires || d.message.value.None? || d.message.value == Some("")
             || Parse(d.message.value.value).None? || Parse(d.message.value.value) == Some(JNull)
    ensures TaskMessageStep(s, d).state == s
    ensures TaskMessageStep(s, d).out != Handled
  {
  }

  /** Over a run, the worker never touches the upload bucket, and publishes
      at most one completion per task message. */
  lemma {:induction false} WorkerRunBounds(s: State, ds: seq<TaskDelivery>)
    ensures TaskRunState(s, ds).uploads == s.uploads
    ensures TaskRunState(s, ds).records == s.records
    ensures |s.completions| <= |TaskRunState(s, ds).completions| <= |s.completions| + |ds|
    decreases |ds|
  {
    if ds != [] {
      var d := ds[0];
      if d.message.value.Some? && d.message.value.value != "" {
        match Parse(d.message.value.value)
        case None =>
        case Some(task) =>
          if task != JNull {
            ResizeStores(s, task, d.env);
            ResizeSendsOnce(s, task, d.env);
          }
      }
      WorkerRunBounds(TaskMessageStep(s, d).state, ds[1..]);
    }
  }
}
