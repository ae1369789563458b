/**
 * The API's side of the broker: publishing a task with bounded retries,
 * applying a completion message to the image table, and the consumer loop
 * of the completed topic.
 */
module KafkaService {
  import opened Wrappers
  import opened Json
  import opened World
  import SharedSchemas

  // ---------------------------------------------------------------------
  // sendJobToKafka
  // ---------------------------------------------------------------------

  const MaxAttempts: nat := 5
  const BackoffCap: nat := 3000
  const RetryFailureMessage: string := "Failed to send job to Kafka after 5 attempts"

  /** What one pass through the loop body meets: `connect()` throws, or
      `send()` throws, or the message is delivered. */
  datatype Outcome = ConnectFailed(error: Thrown) | SendFailed(error: Thrown) | Delivered

  /** One attempt: the clock read for `startTime`, and its outcome. */
  datatype Attempt = Attempt(now: int, outcome: Outcome)

  /** What a call of sendJobToKafka does: the messages it published, what it
      returned or threw, and the waits between attempts. */
  datatype SendReport = SendReport(published: seq<BrokerMessage>, result: Result<bool, Thrown>, delays: seq<nat>)

  function Pow2(n: nat): (r: nat)
    ensures r >= 1
  {
    if n == 0 then 1 else 2 * Pow2(n - 1)
  }

  /** `Math.min(100 * Math.pow(2, attempts), 3000)`. */
  function Backoff(attempts: nat): (d: nat)
    ensures d <= BackoffCap
    ensures d < BackoffCap ==> d == 100 * Pow2(attempts)
  {
    if 100 * Pow2(attempts) < BackoffCap then 100 * Pow2(attempts) else BackoffCap
  }

  /** The waits after failed attempts 1 to n. */
  function Delays(n: nat): (r: seq<nat>)
    ensures |r| == n
    ensures forall k :: 0 <= k < n ==> r[k] == Backoff(k + 1)
  {
    if n == 0 then [] else Delays(n - 1) + [Backoff(n)]
  }

  /** The first of the attempts `from` to 4 (counting from 0) that delivers. */
  function FirstDelivery(script: nat -> Attempt, from: nat): (r: Option<nat>)
    ensures r.Some? ==> && from <= r.value < MaxAttempts
                        && script(r.value).outcome.Delivered?
                        && forall k :: from <= k < r.value ==> !script(k).outcome.Delivered?
    ensures r.None? ==> forall k :: from <= k < MaxAttempts ==> !script(k).outcome.Delivered?
    decreases MaxAttempts - from
  {
    if from >= MaxAttempts then None
    else if script(from).outcome.Delivered? then Some(from)
    else FirstDelivery(script, from + 1)
  }

  /** JavaScript truthiness of a thrown value. */
  predicate IsTruthy(e: Thrown)
  {
    e.Error? || e.truthy
  }

  /** `throw lastError || new Error(errorMsg)`. */
  function TerminalError(lastError: Thrown): (r: Thrown)
    ensures IsTruthy(lastError) ==> r == lastError
    ensures !IsTruthy(lastError) ==> r == Error("Error", RetryFailureMessage)
  {
    if IsTruthy(lastError) then lastError else Error("Error", RetryFailureMessage)
  }

  /** The task message: key uuid, value the JSON text of {uuid, startTime}. */
  function TaskMessage(uuid: string, startTime: int): BrokerMessage
  {
    BrokerMessage(Some(uuid), Some(Stringify(SharedSchemas.ProcessImageJson(SharedSchemas.ProcessImage(uuid, startTime)))))
  }

  /** sendJobToKafka in closed form: stop at the first delivery, or give up
      after five failures with the last error. */
  function SendJob(uuid: string, script: nat -> Attempt): SendReport
  {
    match FirstDelivery(script, 0)
    case Some(k) => SendReport([TaskMessage(uuid, script(k).now)], Ok(true), Delays(k))
    case None =>
      SendReport([], Err(TerminalError(script(MaxAttempts - 1).outcome.error)), Delays(MaxAttempts - 1))
  }

  /** The retry loop, with `sent`, `attempts` and `lastError` as in the source. */
  method SendJobToKafka(w: World, uuid: string, script: nat -> Attempt)
    returns (r: Result<bool, Thrown>, delays: seq<nat>)
    modifies w
    ensures w.Snapshot() == old(w.Snapshot()).(tasks := old(w.tasks) + SendJob(uuid, script).published)
    ensures r == SendJob(uuid, script).result && delays == SendJob(uuid, script).delays
  {
    var sent := false;
    var attempts: nat := 0;
    var lastError: Option<Thrown> := None;
    delays := [];
    while !sent && attempts < MaxAttempts
      invariant attempts <= MaxAttempts
      invariant w.Snapshot() == old(w.Snapshot()).(tasks := w.tasks)
      invariant sent ==> 1 <= attempts && FirstDelivery(script, 0) == Some(attempts - 1)
      invariant sent ==> w.tasks == old(w.tasks) + [TaskMessage(uuid, script(attempts - 1).now)]
      invariant sent ==> delays == Delays(attempts - 1)
      invariant !sent ==> forall k :: 0 <= k < attempts ==> !script(k).outcome.Delivered?
      invariant !sent ==> w.tasks == old(w.tasks)
      invariant !sent ==> delays == Delays(if attempts < MaxAttempts then attempts else MaxAttempts - 1)
      invariant !sent && attempts > 0 ==> lastError == Some(script(attempts - 1).outcome.error)
      decreases MaxAttempts - attempts, if sent then 0 else 1
    {
      attempts := attempts + 1;
      var attempt := script(attempts - 1);
      match attempt.outcome
      case Delivered =>
        w.tasks := w.tasks + [TaskMessage(uuid, attempt.now)];
        sent := true;
        assert FirstDelivery(script, attempts - 1) == Some(attempts - 1);
        FirstDeliveryFrom(script, attempts - 1);
      case ConnectFailed(e) =>
        lastError := Some(e);
        if attempts < MaxAttempts {
          delays := delays + [Backoff(attempts)];
        }
      case SendFailed(e) =>
        lastError := Some(e);
        if attempts < MaxAttempts {
          delays := delays + [Backoff(attempts)];
        }
    }
    if !sent {
      FirstDeliveryFrom(script, MaxAttempts);
      r := Err(TerminalError(lastError.value));
    } else {
      r := Ok(true);
    }
  }

  /** When no earlier attempt delivered, searching from 0 finds what searching
      from `k` finds. */
  lemma {:induction false} FirstDeliveryFrom(script: nat -> Attempt, k: nat)
    requires k <= MaxAttempts
    requires forall j :: 0 <= j < k ==> !script(j).outcome.Delivered?
    ensures FirstDelivery(script, 0) == FirstDelivery(script, k)
    decreases k
  {
    if k > 0 {
      FirstDeliveryFrom(script, k - 1);
      assert FirstDelivery(script, k - 1) == FirstDelivery(script, k);
    }
  }

  /** At most five attempts, so at most four waits, and at most one message. */
  lemma SendJobBounds(uuid: string, script: nat -> Attempt)
    ensures |SendJob(uuid, script).delays| < MaxAttempts
    ensures |SendJob(uuid, script).published| <= 1
    ensures SendJob(uuid, script).result.Ok? ==> SendJob(uuid, script).result.value
  {
  }

  /** The loop succeeds exactly when one of the five attempts delivers, and
      then it publishes one message whose startTime is the clock of that
      attempt; before it, every attempt failed, by connect or by send. */
  lemma SendJobSucceedsIff(uuid: string, script: nat -> Attempt)
    ensures SendJob(uuid, script).result.Ok? <==> exists k :: 0 <= k < MaxAttempts && script(k).outcome.Delivered?
    ensures forall k :: 0 <= k < MaxAttempts && script(k).outcome.Delivered? &&
                        (forall j :: 0 <= j < k ==> !script(j).outcome.Delivered?) ==>
              SendJob(uuid, script).published == [TaskMessage(uuid, script(k).now)]
              && |SendJob(uuid, script).delays| == k
  {
    match FirstDelivery(script, 0)
    case Some(first) =>
      assert script(first).outcome.Delivered?;
      forall k | 0 <= k < MaxAttempts && script(k).outcome.Delivered? &&
                 (forall j :: 0 <= j < k ==> !script(j).outcome.Delivered?)
        ensures k == first
      {
      }
    case None =>
  }

  /** After five failures the error thrown is the last one caught, or a new
      Error when that one is falsy. */
  lemma SendJobGivesUp(uuid: string, script: nat -> Attempt)
    requires forall k :: 0 <= k < MaxAttempts ==> !script(k).outcome.Delivered?
    ensures SendJob(uuid, script).result == Err(TerminalError(script(4).outcome.error))
    ensures SendJob(uuid, script).published == []
    ensures SendJob(uuid, script).delays == [200, 400, 800, 1600]
  {
    assert FirstDelivery(script, 0).None?;
    DelaySchedule();
  }

  /** The waits double from 200 ms; the 3000 ms cap is never reached. */
  lemma DelaySchedule()
    ensures Delays(4) == [200, 400, 800, 1600]
    ensures forall k :: 1 <= k < MaxAttempts ==> Backoff(k) < BackoffCap
  {
    assert Pow2(1) == 2 && Pow2(2) == 4 && Pow2(3) == 8 && Pow2(4) == 16;
    assert Delays(4) == [Backoff(1), Backoff(2), Backoff(3), Backoff(4)];
  }

  /** The published message reads back as the task {uuid, startTime}. */
  lemma TaskMessageRoundTrip(uuid: string, startTime: int)
    requires SharedSchemas.IsUuid(uuid)
    ensures TaskMessage(uuid, startTime).value.Some?
    ensures var j := Parse(TaskMessage(uuid, startTime).value.value);
            j.Some? && SharedSchemas.ParseProcessImage(j.value) == Some(SharedSchemas.ProcessImage(uuid, startTime))
  {
    SharedSchemas.ProcessImageRoundTrip(SharedSchemas.ProcessImage(uuid, startTime));
  }

  // ---------------------------------------------------------------------
  // handleCompletion
  // ---------------------------------------------------------------------

  /** Reading `completion.uuid` when the parsed message is `null`. */
  const NullCompletion: Thrown := Error("TypeError", "Cannot read properties of null (reading 'uuid')")

  /** `updateforDB` applied to a row: success stamps completedAt. */
  function ApplyCompletion(r: ImageRecord, success: bool, now: int): (r': ImageRecord)
    ensures r'.status == if success then SucceededStatus else FailedStatus
    ensures r'.completedAt == if success then now else r.completedAt
    ensures r' == r.(status := r'.status, completedAt := r'.completedAt)
  {
    if success then r.(status := SucceededStatus, completedAt := now) else r.(status := FailedStatus)
  }

  /** handleCompletion: update the row named by `uuid`, then remove the
      staged upload; `removeError` is what removeObject throws, if anything. */
  function HandleCompletionStep(s: State, c: Json, now: int, removeError: Option<Thrown>): Step<Result<(), Thrown>>
  {
    if c == JNull then Step(s, Err(NullCompletion))
    else
      match Get(c, "uuid")
      case Some(JStr(u)) =>
        (match IndexOf(s.records, u)
         case None => Step(s, Err(RecordNotFound))
         case Some(i) =>
           var s1 := s.(records := s.records[i := ApplyCompletion(s.records[i], Truthy(Get(c, "success")), now)]);
           if !ValidObjectName(u) then Step(s1, Err(InvalidObjectName))
           else if removeError.Some? then Step(s1, Err(removeError.value))
           else Step(s1.(uploads := s1.uploads - {u}), Ok(())))
      case _ => Step(s, Err(InvalidWhere))
  }

  method HandleCompletion(w: World, c: Json, now: int, removeError: Option<Thrown>) returns (r: Result<(), Thrown>)
    modifies w
    ensures Step(w.Snapshot(), r) == HandleCompletionStep(old(w.Snapshot()), c, now, removeError)
  {
    if c == JNull {
      return Err(NullCompletion);
    }
    var success := Truthy(Get(c, "success"));
    match Get(c, "uuid")
    case Some(JStr(u)) =>
      var i := IndexOf(w.records, u);
      if i.None? {
        return Err(RecordNotFound);
      }
      w.records := w.records[i.value := ApplyCompletion(w.records[i.value], success, now)];
      if !ValidObjectName(u) {
        return Err(InvalidObjectName);
      }
      if removeError.Some? {
        return Err(removeError.value);
      }
      w.uploads := w.uploads - {u};
      r := Ok(());
    case _ =>
      r := Err(InvalidWhere);
  }

  /** A handled completion sets the status from the success flag alone,
      stamps completedAt only on success, leaves every other row and column,
      and touches neither the completed bucket nor the topics. */
  lemma CompletionEffect(s: State, c: Json, now: int, removeError: Option<Thrown>, u: string)
    requires Get(c, "uuid") == Some(JStr(u)) && IndexOf(s.records, u).Some?
    ensures var i := IndexOf(s.records, u).value;
            var t := HandleCompletionStep(s, c, now, removeError).state;
            && |t.records| == |s.records|
            && t.records[i] == ApplyCompletion(s.records[i], Truthy(Get(c, "success")), now)
            && (forall k :: 0 <= k < |s.records| && k != i ==> t.records[k] == s.records[k])
            && t.collections == s.collections && t.completed == s.completed
            && t.tasks == s.tasks && t.completions == s.completions
  {
  }

  /** The staged upload is removed only when the row update and the removal
      both succeeded; nothing changes when the row is not there. */
  lemma CompletionCleanup(s: State, c: Json, now: int, removeError: Option<Thrown>)
    ensures var st := HandleCompletionStep(s, c, now, removeError);
            && (st.out.Ok? <==> c != JNull && removeError.None? &&
                                 exists u :: Get(c, "uuid") == Some(JStr(u)) && IndexOf(s.records, u).Some?
                                             && ValidObjectName(u))
            && (st.out.Ok? ==> exists u :: Get(c, "uuid") == Some(JStr(u)) && st.state.uploads == s.uploads - {u})
            && (st.out.Err? ==> st.state.uploads == s.uploads)
            && (!(exists u :: Get(c, "uuid") == Some(JStr(u)) && IndexOf(s.records, u).Some?) || c == JNull ==>
                  st.state == s)
  {
  }

  /** Nothing looks at the row's current status: a row already `failed`
      becomes `succeeded` when a success message arrives. */
  lemma NoTerminalGuard(s: State, u: string, now: int)
    requires IndexOf(s.records, u).Some? && s.records[IndexOf(s.records, u).value].status == FailedStatus
    ensures var c := JObj([Member("uuid", JStr(u)), Member("success", JBool(true))]);
            var t := HandleCompletionStep(s, c, now, None).state;
            t.records[IndexOf(s.records, u).value].status == SucceededStatus
  {
    var c := JObj([Member("uuid", JStr(u)), Member("success", JBool(true))]);
    assert c.members[..1] == [c.members[0]];
    assert Get(c, "uuid") == Some(JStr(u));
    assert Get(c, "success") == Some(JBool(true));
  }

  /** Replaying a success message keeps the status and moves completedAt to
      the replay's time. */
  lemma ReplayRestamps(s: State, c: Json, now1: int, now2: int, u: string)
    requires Get(c, "uuid") == Some(JStr(u)) && IndexOf(s.records, u).Some? && Truthy(Get(c, "success"))
    ensures var t1 := HandleCompletionStep(s, c, now1, None).state;
            var t2 := HandleCompletionStep(t1, c, now2, None).state;
            var i := IndexOf(s.records, u).value;
            && IndexOf(t1.records, u) == Some(i)
            && t1.records[i].status == SucceededStatus && t2.records[i].status == SucceededStatus
            && t1.records[i].completedAt == now1 && t2.records[i].completedAt == now2
  {
    var i := IndexOf(s.records, u).value;
    var t1 := HandleCompletionStep(s, c, now1, None).state;
    IndexOfStable(s.records, i, ApplyCompletion(s.records[i], true, now1));
  }

  /** Rewriting a row in place, uuid kept, keeps where the lookup finds it. */
  lemma {:induction false} IndexOfStable(rs: seq<ImageRecord>, i: nat, x: ImageRecord)
    requires IndexOf(rs, x.uuid) == Some(i)
    ensures IndexOf(rs[i := x], x.uuid) == Some(i)
    decreases |rs|
  {
    if i < |rs| - 1 {
      assert rs[i := x][..|rs| - 1] == rs[..|rs| - 1][i := x];
      IndexOfStable(rs[..|rs| - 1], i, x);
    }
  }

  /** The message `{uuid, success: "yes"}` fails the completion schema. */
  lemma YesMessage(u: string)
    ensures var c := JObj([Member("uuid", JStr(u)), Member("success", JStr("yes"))]);
            && Get(c, "uuid") == Some(JStr(u)) && Get(c, "success") == Some(JStr("yes"))
            && SharedSchemas.ParseCompleteImage(c).None?
  {
    var c := JObj([Member("uuid", JStr(u)), Member("success", JStr("yes"))]);
    assert c.members[..1] == [c.members[0]];
    assert Get(c, "success") == Some(JStr("yes"));
    assert !(exists ok :: Get(c, "success") == Some(JBool(ok)));
  }

  /** The API casts the parsed message and never checks it against the
      completion schema: a `success` that is the string "yes" still marks the
      row succeeded. */
  lemma CastIsNotValidation(s: State, u: string, now: int)
    requires IndexOf(s.records, u).Some? && ValidObjectName(u)
    ensures var c := JObj([Member("uuid", JStr(u)), Member("success", JStr("yes"))]);
            && SharedSchemas.ParseCompleteImage(c).None?
            && HandleCompletionStep(s, c, now, None).out.Ok?
            && HandleCompletionStep(s, c, now, None).state.records[IndexOf(s.records, u).value].status == SucceededStatus
  {
    var c := JObj([Member("uuid", JStr(u)), Member("success", JStr("yes"))]);
    YesMessage(u);
    assert Truthy(Get(c, "success"));
    var i := IndexOf(s.records, u).value;
    var s1 := s.(records := s.records[i := ApplyCompletion(s.records[i], true, now)]);
    assert HandleCompletionStep(s, c, now, None) == Step(s1.(uploads := s1.uploads - {u}), Ok(()));
  }

  /** Applying a completion keeps the uuid column unique. */
  lemma CompletionKeepsValid(s: State, c: Json, now: int, removeError: Option<Thrown>)
    requires Valid(s)
    ensures Valid(HandleCompletionStep(s, c, now, removeError).state)
  {
    if c != JNull && Get(c, "uuid").Some? && Get(c, "uuid").value.JStr? {
      var u := Get(c, "uuid").value.s;
      if IndexOf(s.records, u).Some? {
        var i := IndexOf(s.records, u).value;
        UniqueUpdate(s.records, i, ApplyCompletion(s.records[i], Truthy(Get(c, "success")), now));
      }
    }
  }

  // ---------------------------------------------------------------------
  // The completed-topic consumer (initializeKafkaSystem's eachMessage)
  // ---------------------------------------------------------------------

  /** One message of the completed topic, with what the clock and the upload
      bucket do while it is handled. */
  datatype CompletionDelivery = CompletionDelivery(message: BrokerMessage, now: int, removeError: Option<Thrown>)

  /** eachMessage: an absent or empty value is skipped; otherwise parse and
      hand over, logging (and swallowing) whatever is thrown. */
  function CompletionMessageStep(s: State, d: CompletionDelivery): Step<Handling>
  {
    var value := d.message.value;
    if value.None? || value.value == "" then Step(s, Skipped)
    else
      match Parse(value.value)
      case None => Step(s, Logged(ParseFailure))
      case Some(j) =>
        var st := HandleCompletionStep(s, j, d.now, d.removeError);
        Step(st.state, if st.out.Ok? then Handled else Logged(st.out.error))
  }

  method CompletionEachMessage(w: World, d: CompletionDelivery) returns (h: Handling)
    modifies w
    ensures Step(w.Snapshot(), h) == CompletionMessageStep(old(w.Snapshot()), d)
  {
    var value := d.message.value;
    if value.None? || value.value == "" {
      return Skipped;
    }
    var parsed := Parse(value.value);
    if parsed.None? {
      return Logged(ParseFailure);
    }
    var r := HandleCompletion(w, parsed.value, d.now, d.removeError);
    h := if r.Ok? then Handled else Logged(r.error);
  }

  /** The state after the handler has seen each message in turn. */
  /** What each message is handled as, each in the state the ones before it
      left. */
  function ConsumeCompletionsLog(s: State, ds: seq<CompletionDelivery>): (log: seq<Handling>)
    ensures |log| == |ds|
    decreases |ds|
  {
    if ds == [] then [] else [CompletionMessageStep(s, ds[0]).out] + ConsumeCompletionsLog(CompletionMessageStep(s, ds[0]).state, ds[1..])
  }

  function ConsumeCompletionsState(s: State, ds: seq<CompletionDelivery>): State
    decreases |ds|
  {
    if ds == [] then s
    else ConsumeCompletionsState(CompletionMessageStep(s, ds[0]).state, ds[1..])
  }

  /** `consumerCompleted.run`: messages are handled one at a time, and an
      error in one never stops the ones after it. */
  method ConsumeCompletions(w: World, ds: seq<CompletionDelivery>) returns (log: seq<Handling>)
    modifies w
    ensures w.Snapshot() == ConsumeCompletionsState(old(w.Snapshot()), ds)
    ensures log == ConsumeCompletionsLog(old(w.Snapshot()), ds)
  {
    log := [];
    var i := 0;
    while i < |ds|
      invariant 0 <= i <= |ds| && |log| == i
      invariant ConsumeCompletionsState(old(w.Snapshot()), ds) == ConsumeCompletionsState(w.Snapshot(), ds[i..])
      invariant ConsumeCompletionsLog(old(w.Snapshot()), ds) == log + ConsumeCompletionsLog(w.Snapshot(), ds[i..])
    {
      assert ds[i..][1..] == ds[i + 1..];
      var h := CompletionEachMessage(w, ds[i]);
      log := log + [h];
      i := i + 1;
    }
  }

  /** A message without a value, or with an empty one, changes nothing. */
  lemma EmptyValueSkipped(s: State, d: CompletionDelivery)
    requires d.message.value.None? || d.message.value == Some("")
    ensures CompletionMessageStep(s, d) == Step(s, Skipped)
  {
  }

  /** Text that does not parse changes nothing and is only logged. */
  lemma UnparsableLogged(s: State, d: CompletionDelivery)
    requires d.message.value.Some? && d.message.value.value != "" && Parse(d.message.value.value).None?
    ensures CompletionMessageStep(s, d) == Step(s, Logged(ParseFailure))
  {
  }

  /** A completion published by the worker, read back through its JSON text,
      is applied as the message says. */
  lemma PublishedCompletionApplied(s: State, m: SharedSchemas.CompleteImage, now: int)
    requires SharedSchemas.IsUuid(m.uuid) && IndexOf(s.records, m.uuid).Some?
    ensures var d := CompletionDelivery(BrokerMessage(Some(m.uuid), Some(Stringify(SharedSchemas.CompleteImageJson(m)))), now, None);
            var i := IndexOf(s.records, m.uuid).value;
            var st := CompletionMessageStep(s, d);
            st == Step(s.(records := s.records[i := ApplyCompletion(s.records[i], m.success, now)],
                          uploads := s.uploads - {m.uuid}), Handled)
  {
    SharedSchemas.CompleteImageRoundTrip(m);
    var text := Stringify(SharedSchemas.CompleteImageJson(m));
    StringifyNonEmpty(SharedSchemas.CompleteImageJson(m));
  }

  lemma StringifyNonEmpty(j: Json)
    ensures Stringify(j) != ""
  {
    StringifyStart(j);
  }

  /** Every handled message keeps the uuid column unique. */
  lemma {:induction false} ConsumeKeepsValid(s: State, ds: seq<CompletionDelivery>)
    requires Valid(s)
    ensures Valid(ConsumeCompletionsState(s, ds))
    decreases |ds|
  {
    if ds != [] {
      var d := ds[0];
      if d.message.value.Some? && d.message.value.value != "" && Parse(d.message.value.value).Some? {
        CompletionKeepsValid(s, Parse(d.message.value.value).value, d.now, d.removeError);
      }
      ConsumeKeepsValid(CompletionMessageStep(s, d).state, ds[1..]);
    }
  }
}
