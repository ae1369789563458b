/**
 * The pipeline end to end: the API publishes a task, the worker resizes the
 * image and publishes a completion, and the API's consumer applies it.  The
 * API, the worker and the consumer run concurrently; a schedule here is an
 * explicit order of their steps.
 *
 * createProcessingTask publishes before it inserts the row.  A worker fast
 * enough to finish before the insert has its completion dropped (the row is
 * not there yet) and the image stays "pending" for good.  The corrected
 * order inserts first, and every published task then has its row.
 */
module Pipeline {
  import opened Wrappers
  import opened Json
  import opened World
  import ImageDto
  import ImageService
  import KafkaService
  import ImageResize
  import SharedSchemas

  // ---------------------------------------------------------------------
  // Messages between the services
  // ---------------------------------------------------------------------

  /** A completed-topic message whose JSON says the image `u` succeeded. */
  predicate ReportsSuccess(m: BrokerMessage, u: string)
  {
    && m.value.Some? && m.value.value != "" && Parse(m.value.value).Some?
    && Parse(m.value.value).value != JNull
    && Get(Parse(m.value.value).value, "uuid") == Some(JStr(u))
    && Truthy(Get(Parse(m.value.value).value, "success"))
  }

  /** The worker, given the task message the API published for an image
      whose upload is staged and can be resized and stored, stores the
      thumbnail and publishes a success report; it touches no table. */
  lemma WorkerHandlesTask(s: State, u: string, startTime: int, env: ImageResize.WorkerEnv)
    requires SharedSchemas.IsUuid(u) && u in s.uploads
    requires env.transform(s.uploads[u]).Ok? && env.putError.None? && env.sendOk
    ensures var st := ImageResize.TaskMessageStep(s, ImageResize.TaskDelivery(KafkaService.TaskMessage(u, startTime), env));
            && st.out == Handled
            && st.state == s.(completed := s.completed[u := env.transform(s.uploads[u]).value],
                              completions := st.state.completions)
            && |st.state.completions| == |s.completions| + 1
            && ReportsSuccess(st.state.completions[|s.completions|], u)
  {
    var m := SharedSchemas.ProcessImage(u, startTime);
    SharedSchemas.ProcessImageRoundTrip(m);
    KafkaService.StringifyNonEmpty(SharedSchemas.ProcessImageJson(m));
    var task := SharedSchemas.ProcessImageJson(m);
    assert ImageResize.TaskUuid(task) == Some(u);
    ImageResize.ResizeMessage(s, task, env);
    ImageResize.ResizeStores(s, task, env);
    KafkaService.StringifyNonEmpty(ImageResize.CompletionFor(s, task, env));
  }

  /** The consumer, given a success report: dropped with P2025 when the row
      is not there, applied (and the upload removed) when it is. */
  lemma ConsumerHandlesSuccess(s: State, m: BrokerMessage, u: string, now: int)
    requires ReportsSuccess(m, u) && ValidObjectName(u)
    ensures var st := KafkaService.CompletionMessageStep(s, KafkaService.CompletionDelivery(m, now, None));
            && (IndexOf(s.records, u).None? ==> st == Step(s, Logged(RecordNotFound)))
            && (IndexOf(s.records, u).Some? ==>
                  var i := IndexOf(s.records, u).value;
                  && st.out == Handled
                  && st.state == s.(records := s.records[i := s.records[i].(status := SucceededStatus, completedAt := now)],
                                    uploads := s.uploads - {u}))
  {
  }

  // ---------------------------------------------------------------------
  // The schedule as written: publish, worker, consumer, then insert
  // ---------------------------------------------------------------------

  /** What the worker and then the consumer do with the task message at
      position `k` of the tasks topic; the consumer's handling is returned. */
  function RunTask(s: State, k: nat, env: ImageResize.WorkerEnv, cnow: int): Step<Handling>
  {
    if k >= |s.tasks| then Step(s, Skipped)
    else
      var w := ImageResize.TaskMessageStep(s, ImageResize.TaskDelivery(s.tasks[k], env)).state;
      if |w.completions| <= |s.completions| then Step(w, Skipped)
      else KafkaService.CompletionMessageStep(w, KafkaService.CompletionDelivery(w.completions[|s.completions|], cnow, None))
  }

  /** The worker and the consumer on a published task whose upload can be
      processed: the thumbnail is stored, and the report is applied when
      the row is there and dropped with P2025 when it is not. */
  lemma RunTaskOutcome(c: State, k: nat, u: string, startTime: int, env: ImageResize.WorkerEnv, cnow: int)
    requires k < |c.tasks| && c.tasks[k] == KafkaService.TaskMessage(u, startTime)
    requires SharedSchemas.IsUuid(u) && u in c.uploads
    requires env.transform(c.uploads[u]).Ok? && env.putError.None? && env.sendOk
    ensures var st := RunTask(c, k, env, cnow);
            && u in st.state.completed
            && (IndexOf(c.records, u).None? ==>
                  st.out == Logged(RecordNotFound) && st.state.records == c.records && st.state.uploads == c.uploads)
            && (IndexOf(c.records, u).Some? ==>
                  var i := IndexOf(c.records, u).value;
                  && st.out == Handled
                  && st.state.records == c.records[i := c.records[i].(status := SucceededStatus, completedAt := cnow)]
                  && st.state.uploads == c.uploads - {u})
  {
    WorkerHandlesTask(c, u, startTime, env);
    var w := ImageResize.TaskMessageStep(c, ImageResize.TaskDelivery(c.tasks[k], env)).state;
    ConsumerHandlesSuccess(w, w.completions[|c.completions|], u, cnow);
  }

  /** createProcessingTask with the worker and the consumer running between
      its publish and its insert. */
  function RaceAsWritten(s: State, dto: ImageDto.ImageDto, script: nat -> KafkaService.Attempt, now: int,
                         env: ImageResize.WorkerEnv, cnow: int): Step<Handling>
  {
    var p := ImageService.PublishStep(s, dto.uuid, script);
    var r := RunTask(p.state, |s.tasks|, env, cnow);
    Step(ImageService.InsertStep(r.state, dto, now).state, r.out)
  }

  /** As written, the race loses the completion: the consumer logs P2025,
      the row is inserted afterwards and stays pending, and the staged
      upload is never removed, though the thumbnail is stored. */
  lemma RaceLosesCompletion(s: State, dto: ImageDto.ImageDto, script: nat -> KafkaService.Attempt, now: int,
                            env: ImageResize.WorkerEnv, cnow: int)
    requires SharedSchemas.IsUuid(dto.uuid) && IndexOf(s.records, dto.uuid).None?
    requires dto.uuid in s.uploads && env.transform(s.uploads[dto.uuid]).Ok? && env.putError.None? && env.sendOk
    requires KafkaService.FirstDelivery(script, 0).Some?
    ensures var st := RaceAsWritten(s, dto, script, now, env, cnow);
            && st.out == Logged(RecordNotFound)
            && st.state.records == s.records + [ImageService.NewRecord(dto, now)]
            && st.state.records[|s.records|].status == PendingStatus
            && dto.uuid in st.state.uploads && dto.uuid in st.state.completed
  {
    var p := ImageService.PublishStep(s, dto.uuid, script).state;
    var k := KafkaService.FirstDelivery(script, 0).value;
    assert p.tasks[|s.tasks|] == KafkaService.TaskMessage(dto.uuid, script(k).now);
    RunTaskOutcome(p, |s.tasks|, dto.uuid, script(k).now, env, cnow);
  }

  // ---------------------------------------------------------------------
  // The corrected order: insert, then publish
  // ---------------------------------------------------------------------

  /** createProcessingTask inserting the row before publishing.  A failed
      publish leaves the pending row behind and rethrows. */
  function CreateTaskCorrectedStep(s: State, dto: ImageDto.ImageDto, script: nat -> KafkaService.Attempt, now: int)
    : Step<Result<ImageRecord, Thrown>>
  {
    var ins := ImageService.InsertStep(s, dto, now);
    if ins.out.Err? then ins
    else
      var p := ImageService.PublishStep(ins.state, dto.uuid, script);
      Step(p.state, if p.out.Ok? then ins.out else Err(p.out.error))
  }

  method CreateProcessingTaskCorrected(w: World, dto: ImageDto.ImageDto, script: nat -> KafkaService.Attempt, now: int)
    returns (r: Result<ImageRecord, Thrown>)
    modifies w
    ensures Step(w.Snapshot(), r) == CreateTaskCorrectedStep(old(w.Snapshot()), dto, script, now)
  {
    if IndexOf(w.records, dto.uuid).Some? {
      return Err(UniqueViolation);
    }
    var record := ImageService.NewRecord(dto, now);
    w.records := w.records + [record];
    var sent, delays := KafkaService.SendJobToKafka(w, dto.uuid, script);
    r := if sent.Ok? then Ok(record) else Err(sent.error);
  }

  /** The same schedule with the corrected order: by the time the worker
      sees the task the row is there. */
  function RaceCorrected(s: State, dto: ImageDto.ImageDto, script: nat -> KafkaService.Attempt, now: int,
                         env: ImageResize.WorkerEnv, cnow: int): Step<Handling>
  {
    var c := CreateTaskCorrectedStep(s, dto, script, now);
    RunTask(c.state, |s.tasks|, env, cnow)
  }

  /** With the corrected order the completion is applied: the row ends
      "succeeded" at the consumer's time and the staged upload is removed. */
  lemma RaceCompletes(s: State, dto: ImageDto.ImageDto, script: nat -> KafkaService.Attempt, now: int,
                      env: ImageResize.WorkerEnv, cnow: int)
    requires SharedSchemas.IsUuid(dto.uuid) && IndexOf(s.records, dto.uuid).None?
    requires dto.uuid in s.uploads && env.transform(s.uploads[dto.uuid]).Ok? && env.putError.None? && env.sendOk
    requires KafkaService.FirstDelivery(script, 0).Some?
    ensures var st := RaceCorrected(s, dto, script, now, env, cnow);
            && st.out == Handled
            && st.state.records == s.records + [ImageService.NewRecord(dto, now).(status := SucceededStatus, completedAt := cnow)]
            && dto.uuid !in st.state.uploads && dto.uuid in st.state.completed
  {
    var k := CorrectedPublishes(s, dto, script, now);
    var c := CreateTaskCorrectedStep(s, dto, script, now).state;
    var rs := s.records + [ImageService.NewRecord(dto, now)];
    assert IndexOf(rs, dto.uuid) == Some(|s.records|);
    RunTaskOutcome(c, |s.tasks|, dto.uuid, script(k).now, env, cnow);
    assert rs[|s.records| := rs[|s.records|].(status := SucceededStatus, completedAt := cnow)] ==
           s.records + [ImageService.NewRecord(dto, now).(status := SucceededStatus, completedAt := cnow)];
  }

  /** The corrected step on a free uuid with a delivering broker: the row
      is appended and the task message published after it. */
  lemma CorrectedPublishes(s: State, dto: ImageDto.ImageDto, script: nat -> KafkaService.Attempt, now: int) returns (k: nat)
    requires IndexOf(s.records, dto.uuid).None? && KafkaService.FirstDelivery(script, 0).Some?
    ensures k == KafkaService.FirstDelivery(script, 0).value
    ensures var c := CreateTaskCorrectedStep(s, dto, script, now).state;
            && c == s.(records := s.records + [ImageService.NewRecord(dto, now)], tasks := s.tasks + [KafkaService.TaskMessage(dto.uuid, script(k).now)])
            && c.tasks[|s.tasks|] == KafkaService.TaskMessage(dto.uuid, script(k).now)
  {
    k := KafkaService.FirstDelivery(script, 0).value;
  }

  // ---------------------------------------------------------------------
  // Every published task has its row
  // ---------------------------------------------------------------------

  predicate TasksHaveRows(s: State)
  {
    forall k :: 0 <= k < |s.tasks| && s.tasks[k].key.Some? ==> IndexOf(s.records, s.tasks[k].key.value).Some?
  }

  /** As written, the state between publish and insert, which the worker
      can observe, has a task with no row. */
  lemma PublishBeforeInsertExposed(s: State, dto: ImageDto.ImageDto, script: nat -> KafkaService.Attempt)
    requires IndexOf(s.records, dto.uuid).None? && KafkaService.FirstDelivery(script, 0).Some?
    ensures !TasksHaveRows(ImageService.PublishStep(s, dto.uuid, script).state)
  {
    var p := ImageService.PublishStep(s, dto.uuid, script).state;
    assert p.tasks[|s.tasks|].key == Some(dto.uuid);
  }

  /** A table with one more row still finds every earlier uuid. */
  lemma IndexOfAppend(rs: seq<ImageRecord>, x: ImageRecord, u: string)
    requires IndexOf(rs, u).Some?
    ensures IndexOf(rs + [x], u).Some?
  {
    var i := IndexOf(rs, u).value;
    assert (rs + [x])[i].uuid == u;
  }

  /** The corrected createProcessingTask keeps every task backed by a row,
      answers Ok exactly when the uuid was free and the publish succeeded,
      and publishes nothing when the insert fails. */
  lemma CorrectedKeepsTasksHaveRows(s: State, dto: ImageDto.ImageDto, script: nat -> KafkaService.Attempt, now: int)
    requires TasksHaveRows(s)
    ensures var st := CreateTaskCorrectedStep(s, dto, script, now);
            && TasksHaveRows(st.state)
            && (st.out.Ok? <==> IndexOf(s.records, dto.uuid).None? && KafkaService.SendJob(dto.uuid, script).result.Ok?)
            && (IndexOf(s.records, dto.uuid).Some? ==> st == Step(s, Err(UniqueViolation)))
            && (IndexOf(s.records, dto.uuid).None? ==> st.state.records == s.records + [ImageService.NewRecord(dto, now)])
  {
    var st := CreateTaskCorrectedStep(s, dto, script, now);
    if IndexOf(s.records, dto.uuid).None? {
      var rs := s.records + [ImageService.NewRecord(dto, now)];
      assert IndexOf(rs, dto.uuid).Some?;
      forall k | 0 <= k < |st.state.tasks| && st.state.tasks[k].key.Some?
        ensures IndexOf(rs, st.state.tasks[k].key.value).Some?
      {
        if k < |s.tasks| {
          IndexOfAppend(s.records, ImageService.NewRecord(dto, now), s.tasks[k].key.value);
        }
      }
    }
  }

  /** The worker changes no table and publishes no task. */
  lemma WorkerKeepsTasksHaveRows(s: State, d: ImageResize.TaskDelivery)
    requires TasksHaveRows(s)
    ensures TasksHaveRows(ImageResize.TaskMessageStep(s, d).state)
  {
    var value := d.message.value;
    if value.Some? && value.value != "" && Parse(value.value).Some? {
      ImageResize.ResizeStores(s, Parse(value.value).value, d.env);
    }
  }

  /** handleCompletion publishes no task and keeps every uuid. */
  lemma CompletionFrame(s: State, c: Json, now: int, removeError: Option<Thrown>)
    ensures var t := KafkaService.HandleCompletionStep(s, c, now, removeError).state;
            t.tasks == s.tasks && SameUuids(t.records, s.records)
  {
  }

  /** The consumer rewrites rows in place and keeps every uuid. */
  lemma ConsumerKeepsTasksHaveRows(s: State, d: KafkaService.CompletionDelivery)
    requires TasksHaveRows(s)
    ensures TasksHaveRows(KafkaService.CompletionMessageStep(s, d).state)
  {
    var value := d.message.value;
    if value.Some? && value.value != "" && Parse(value.value).Some? {
      var t := KafkaService.HandleCompletionStep(s, Parse(value.value).value, d.now, d.removeError).state;
      assert KafkaService.CompletionMessageStep(s, d).state == t;
      CompletionFrame(s, Parse(value.value).value, d.now, d.removeError);
      forall k | 0 <= k < |t.tasks| && t.tasks[k].key.Some?
        ensures IndexOf(t.records, t.tasks[k].key.value).Some?
      {
        IndexOfSameUuids(t.records, s.records, t.tasks[k].key.value);
      }
    }
  }

  // ---------------------------------------------------------------------
  // The completion update guarded by the row's status
  // ---------------------------------------------------------------------

  /** handleCompletion applying a report only to a row still pending; a
      report for a finished row is acknowledged and changes nothing. */
  function GuardedCompletionStep(s: State, c: Json, now: int, removeError: Option<Thrown>): Step<Result<(), Thrown>>
  {
    if c != JNull && Get(c, "uuid").Some? && Get(c, "uuid").value.JStr?
       && IndexOf(s.records, Get(c, "uuid").value.s).Some?
       && s.records[IndexOf(s.records, Get(c, "uuid").value.s).value].status != PendingStatus
    then Step(s, Ok(()))
    else KafkaService.HandleCompletionStep(s, c, now, removeError)
  }

  /** A finished row is final: no report, replayed or contradictory,
      changes it or any other store. */
  lemma GuardedTerminalStable(s: State, c: Json, now: int, removeError: Option<Thrown>, u: string)
    requires Get(c, "uuid") == Some(JStr(u)) && IndexOf(s.records, u).Some?
    requires s.records[IndexOf(s.records, u).value].status in {SucceededStatus, FailedStatus}
    ensures GuardedCompletionStep(s, c, now, removeError) == Step(s, Ok(()))
  {
    assert c != JNull;
  }

  /** On a pending row the guard changes nothing in what handleCompletion
      does. */
  lemma GuardedAgreesOnPending(s: State, c: Json, now: int, removeError: Option<Thrown>, u: string)
    requires Get(c, "uuid") == Some(JStr(u)) && IndexOf(s.records, u).Some?
    requires s.records[IndexOf(s.records, u).value].status == PendingStatus
    ensures GuardedCompletionStep(s, c, now, removeError) == KafkaService.HandleCompletionStep(s, c, now, removeError)
  {
  }

  /** With the guard, replaying a success report keeps the first completion
      time. */
  lemma GuardedReplayKeepsTime(s: State, c: Json, now1: int, now2: int, u: string)
    requires Get(c, "uuid") == Some(JStr(u)) && IndexOf(s.records, u).Some? && Truthy(Get(c, "success"))
    requires s.records[IndexOf(s.records, u).value].status == PendingStatus
    ensures var t1 := GuardedCompletionStep(s, c, now1, None).state;
            var t2 := GuardedCompletionStep(t1, c, now2, None).state;
            && t2 == t1
            && t1.records[IndexOf(s.records, u).value].completedAt == now1
  {
    var i := IndexOf(s.records, u).value;
    KafkaService.ReplayRestamps(s, c, now1, now2, u);
    var t1 := GuardedCompletionStep(s, c, now1, None).state;
    assert t1.records[i].status == SucceededStatus;
    GuardedTerminalStable(t1, c, now2, None, u);
  }
}
