/**
 * The decision logic of src/lib/openai-service.ts, stated on values: tool
 * dispatch (`callTools`), the run-status recursion of poll mode
 * (`handleRunStatus`) and the event relay of stream mode (`onStreamEvent`
 * with its nested submit streams). The `Service` module drives a remote
 * service object through the same steps and is proved against these.
 */
module Orchestration {
  import opened Wrappers
  import opened JsonValue
  import opened ToolRegistry

  datatype Role = User | Assistant

  /** A message held by the remote service, addressed by its thread. */
  datatype Message = Message(threadId: string, role: Role, content: string)

  /** A function tool call of a run: its id, the tool name and the JSON argument text. */
  datatype ToolCall = ToolCall(id: string, name: string, arguments: string)

  datatype ToolOutput = ToolOutput(toolCallId: string, output: string)

  datatype RunStatus =
    | Queued | InProgress | RequiresAction | Cancelling | Cancelled
    | Failed | Completed | Incomplete | Expired

  /** A run; `toolCalls` is `required_action.submit_tool_outputs.tool_calls` when present. */
  datatype Run = Run(id: string, status: RunStatus, toolCalls: Option<seq<ToolCall>>)

  /** What the remote answers to a create-and-poll or a submit-and-poll request. */
  datatype RunReply = Delivered(run: Run) | Rejected(reason: string)

  /** One batch of outputs sent back for a run. */
  datatype Submission = Submission(threadId: string, runId: string, outputs: seq<ToolOutput>)

  /** A transport event of a run stream; `toolCalls` as in `Run`. */
  datatype StreamEvent = StreamEvent(kind: string, runId: string, threadId: string, toolCalls: Option<seq<ToolCall>>)

  const RequiresActionEvent: string := "thread.run.requires_action"

  // ---------------------------------------------------------------- tool dispatch

  /**
   * One call's slot in the `map` of `callTools`: `None` when the call rejects
   * (its arguments do not parse, or its tool fails), `Some(None)` when the
   * name is not an own key of the registry, `Some(Some(output))` otherwise.
   * The arguments are parsed before the registry is consulted.
   */
  function CallTool(env: ToolEnv, parse: Parser, c: ToolCall): (r: Option<Option<ToolOutput>>)
    ensures parse(c.arguments).None? ==> r.None?
    ensures r == Some(None) <==> parse(c.arguments).Some? && c.name !in Registry
    ensures r.Some? && r.value.Some? ==>
      r.value.value.toolCallId == c.id && c.name in Registry &&
      Invoke(env, Registry[c.name], parse(c.arguments).value) == Ok(r.value.value.output)
    ensures parse(c.arguments).Some? && c.name in Registry ==>
      (r.None? <==> Invoke(env, Registry[c.name], parse(c.arguments).value).Err?)
  {
    match parse(c.arguments)
    case None => None
    case Some(args) =>
      match Lookup(c.name)
      case None => Some(None)
      case Some(t) =>
        match Invoke(env, t, args)
        case Err(_) => None
        case Ok(out) => Some(Some(ToolOutput(c.id, out)))
  }

  /** The calls whose name is an own key of the registry, in input order. */
  function RegisteredCalls(calls: seq<ToolCall>): (rs: seq<ToolCall>)
    ensures |rs| <= |calls|
    ensures forall c :: c in rs ==> c in calls && c.name in Registry
    ensures forall c :: c in calls && c.name in Registry ==> c in rs
  {
    if calls == [] then []
    else (if calls[0].name in Registry then [calls[0]] else []) + RegisteredCalls(calls[1..])
  }

  /**
   * `callTools`: `Promise.all` over the slots, then `filter(Boolean)`. One
   * rejected slot rejects the whole batch; otherwise the outputs are those of
   * the registered calls, in input order, each carrying its call's id.
   */
  function CallTools(env: ToolEnv, parse: Parser, calls: seq<ToolCall>): (r: Option<seq<ToolOutput>>)
    ensures r.Some? <==> forall c :: c in calls ==> CallTool(env, parse, c).Some?
    ensures r.Some? ==> |r.value| == |RegisteredCalls(calls)| <= |calls|
    ensures r.Some? ==> forall i :: 0 <= i < |r.value| ==> CallTool(env, parse, RegisteredCalls(calls)[i]) == Some(Some(r.value[i]))
    decreases |calls|
  {
    if calls == [] then Some([])
    else
      match CallTool(env, parse, calls[0])
      case None => None
      case Some(slot) =>
        match CallTools(env, parse, calls[1..])
        case None => None
        case Some(rest) =>
          OutputsCons(env, parse, calls, slot, rest);
          Some((if slot.Some? then [slot.value] else []) + rest)
  }

  /** One step of `CallTools`: the first call's slot in front of the rest's outputs lines up with the registered calls. */
  lemma OutputsCons(env: ToolEnv, parse: Parser, calls: seq<ToolCall>, slot: Option<ToolOutput>, rest: seq<ToolOutput>)
    requires calls != [] && CallTool(env, parse, calls[0]) == Some(slot)
    requires |rest| == |RegisteredCalls(calls[1..])|
    requires forall i :: 0 <= i < |rest| ==> CallTool(env, parse, RegisteredCalls(calls[1..])[i]) == Some(Some(rest[i]))
    ensures var out := (if slot.Some? then [slot.value] else []) + rest;
      |out| == |RegisteredCalls(calls)| &&
      forall i :: 0 <= i < |out| ==> CallTool(env, parse, RegisteredCalls(calls)[i]) == Some(Some(out[i]))
  {
    var head := if slot.Some? then [calls[0]] else [];
    assert slot.Some? <==> calls[0].name in Registry;
    assert RegisteredCalls(calls) == head + RegisteredCalls(calls[1..]);
  }

  /** A malformed argument string anywhere in the batch, registered name or not, fails it. */
  lemma MalformedArgumentsFailBatch(env: ToolEnv, parse: Parser, calls: seq<ToolCall>, i: nat)
    requires i < |calls| && parse(calls[i].arguments).None?
    ensures CallTools(env, parse, calls) == None
  {
    assert CallTool(env, parse, calls[i]).None?;
  }

  /** When every call is registered and succeeds, there is exactly one output per call. */
  lemma {:induction false} AllRegisteredGiveOneOutputEach(env: ToolEnv, parse: Parser, calls: seq<ToolCall>)
    requires forall c :: c in calls ==> c.name in Registry
    requires CallTools(env, parse, calls).Some?
    ensures |CallTools(env, parse, calls).value| == |calls|
    ensures forall i :: 0 <= i < |calls| ==> CallTools(env, parse, calls).value[i].toolCallId == calls[i].id
  {
    AllRegisteredKept(calls);
  }

  lemma {:induction false} AllRegisteredKept(calls: seq<ToolCall>)
    requires forall c :: c in calls ==> c.name in Registry
    ensures RegisteredCalls(calls) == calls
  {
    if calls != [] {
      AllRegisteredKept(calls[1..]);
    }
  }

  /** An unregistered name leaves no output behind and does not by itself fail the batch. */
  lemma {:induction false} UnregisteredCallDropped(env: ToolEnv, parse: Parser, a: seq<ToolCall>, c: ToolCall,
                                                   b: seq<ToolCall>)
    requires c.name !in Registry && parse(c.arguments).Some?
    ensures CallTools(env, parse, a + [c] + b) == CallTools(env, parse, a + b)
    decreases |a|
  {
    if a == [] {
      var x := [c] + b;
      assert a + [c] + b == x && a + b == b;
      assert x[0] == c && x[1..] == b;
      assert CallTool(env, parse, c) == Some(None);
      if CallTools(env, parse, b).Some? {
        assert CallTools(env, parse, x) == Some([] + CallTools(env, parse, b).value);
        assert [] + CallTools(env, parse, b).value == CallTools(env, parse, b).value;
      }
    } else {
      assert (a + [c] + b)[0] == (a + b)[0] == a[0];
      assert (a + [c] + b)[1..] == a[1..] + [c] + b;
      assert (a + b)[1..] == a[1..] + b;
      UnregisteredCallDropped(env, parse, a[1..], c, b);
    }
  }

  /**
   * A tool batch as the run loops see it: `callTools` with the service's
   * tools and parser fixed. The loops never look inside it.
   */
  type BatchFn = seq<ToolCall> -> Option<seq<ToolOutput>>

  // ---------------------------------------------------------------- poll mode

  /** The error `chat` rethrows. */
  datatype ChatError =
    | RemoteFailure(reason: string)  // a rejected remote call, e.g. the un-awaited submission
    | MissingRun                     // TypeError: `.status` of the undefined run

  /** Whether `handleRunStatus` takes its `requires_action` branch (an empty list is truthy). */
  predicate Dispatches(run: Run) {
    run.status == RequiresAction && run.toolCalls.Some?
  }

  /** The remote's next run; once the script is spent the run has expired. */
  function NextReply(replies: seq<RunReply>, runId: string): (reply: RunReply)
    ensures replies == [] ==> reply.Delivered? && reply.run.status == Expired
    ensures replies != [] ==> reply == replies[0]
  {
    if replies == [] then Delivered(Run(runId, Expired, None)) else replies[0]
  }

  function Rest<T>(s: seq<T>): (r: seq<T>)
    ensures |r| == if s == [] then 0 else |s| - 1
  {
    if s == [] then [] else s[1..]
  }

  /** What poll mode observes: the outcome, the batches submitted, the runs seen in order, the unused replies. */
  datatype PollTrace = PollTrace(
    outcome: Result<Option<seq<Message>>, ChatError>,
    submitted: seq<Submission>,
    seen: seq<Run>,
    remaining: seq<RunReply>)

  /**
   * `handleRunStatus` (with `handleRequiresAction` and `submitToolOutputs`
   * inlined): `completed` lists the thread's messages; a run with pending
   * calls dispatches them, submits the batch and continues with the run the
   * remote returns; any other status yields no messages. A failed batch makes
   * `handleRequiresAction` return `undefined`, whose `.status` then throws; a
   * rejected submission is returned un-awaited and so escapes.
   */
  function Poll(batch: BatchFn, threadId: string, listed: seq<Message>,
                run: Run, replies: seq<RunReply>): PollTrace
    decreases |replies|, if Dispatches(run) then 1 else 0
  {
    if run.status == Completed then PollTrace(Ok(Some(listed)), [], [run], replies)
    else if Dispatches(run) then
      match batch(run.toolCalls.value)
      case None => PollTrace(Err(MissingRun), [], [run], replies)
      case Some(outs) =>
        var sub := Submission(threadId, run.id, outs);
        match NextReply(replies, run.id)
        case Rejected(reason) => PollTrace(Err(RemoteFailure(reason)), [sub], [run], Rest(replies))
        case Delivered(next) =>
          var t := Poll(batch, threadId, listed, next, Rest(replies));
          PollTrace(t.outcome, [sub] + t.submitted, [run] + t.seen, t.remaining)
    else PollTrace(Ok(None), [], [run], replies)
  }

  /** One dispatching step of `Poll`, unfolded. */
  lemma PollDispatchStep(batch: BatchFn, threadId: string, listed: seq<Message>,
                         run: Run, replies: seq<RunReply>)
    requires Dispatches(run) && batch(run.toolCalls.value).Some?
    ensures var t := Poll(batch, threadId, listed, run, replies);
      var sub := Submission(threadId, run.id, batch(run.toolCalls.value).value);
      var reply := NextReply(replies, run.id);
      (reply.Rejected? ==>
        t.outcome == Err(RemoteFailure(reply.reason)) && t.submitted == [sub] && t.seen == [run] &&
        t.remaining == Rest(replies)) &&
      (reply.Delivered? ==>
        var u := Poll(batch, threadId, listed, reply.run, Rest(replies));
        t.outcome == u.outcome && t.submitted == [sub] + u.submitted && t.seen == [run] + u.seen &&
        t.remaining == u.remaining)
  {
  }

  /** The batch `handleRequiresAction` submits for a dispatching run whose tools all succeed. */
  predicate SubmittedFor(batch: BatchFn, threadId: string, s: Submission, run: Run) {
    Dispatches(run) &&
    batch(run.toolCalls.value) == Some(s.outputs) &&
    s == Submission(threadId, run.id, s.outputs)
  }

  /**
   * The shape of a poll: the runs seen start with the given run; all but the
   * last took the `requires_action` branch, and the i-th batch submitted was
   * computed from the i-th run seen. A successful poll ends on a run that
   * did not, after exactly one submission per earlier run; it lists the
   * thread's messages exactly when that run completed.
   */
  lemma {:induction false} PollShape(batch: BatchFn, threadId: string, listed: seq<Message>,
                                     run: Run, replies: seq<RunReply>)
    ensures var t := Poll(batch, threadId, listed, run, replies);
      |t.seen| >= 1 && t.seen[0] == run &&
      (forall i :: 0 <= i < |t.seen| - 1 ==> Dispatches(t.seen[i])) &&
      |t.submitted| <= |t.seen| &&
      (forall i :: 0 <= i < |t.submitted| ==> SubmittedFor(batch, threadId, t.submitted[i], t.seen[i])) &&
      (t.outcome.Ok? ==> !Dispatches(t.seen[|t.seen| - 1]) && |t.submitted| == |t.seen| - 1) &&
      (t.outcome == Ok(Some(listed)) <==> t.outcome.Ok? && t.seen[|t.seen| - 1].status == Completed) &&
      (t.outcome.Ok? && t.outcome.value.Some? ==> t.outcome.value.value == listed)
    decreases |replies|, if Dispatches(run) then 1 else 0
  {
    if run.status != Completed && Dispatches(run) {
      match batch(run.toolCalls.value)
      case None =>
      case Some(outs) =>
        match NextReply(replies, run.id)
        case Rejected(_) =>
        case Delivered(next) =>
          PollShape(batch, threadId, listed, next, Rest(replies));
    }
  }

  /** A poll fails with the missing-run TypeError exactly when a dispatching run's batch fails. */
  lemma {:induction false} PollMissingRun(batch: BatchFn, threadId: string, listed: seq<Message>,
                                          run: Run, replies: seq<RunReply>)
    ensures var t := Poll(batch, threadId, listed, run, replies);
      t.outcome == Err(MissingRun) <==>
        Dispatches(t.seen[|t.seen| - 1]) && batch(t.seen[|t.seen| - 1].toolCalls.value).None?
    decreases |replies|, if Dispatches(run) then 1 else 0
  {
    if run.status != Completed && Dispatches(run) {
      match batch(run.toolCalls.value)
      case None =>
      case Some(outs) =>
        match NextReply(replies, run.id)
        case Rejected(_) =>
        case Delivered(next) =>
          PollMissingRun(batch, threadId, listed, next, Rest(replies));
    }
  }

  /** The first run a poll sees is the one it starts from. */
  lemma PollSeesRunFirst(batch: BatchFn, threadId: string, listed: seq<Message>, run: Run, replies: seq<RunReply>)
    ensures var t := Poll(batch, threadId, listed, run, replies);
      |t.seen| >= 1 && t.seen[0] == run
  {
  }

  /** The sequence bookkeeping of one delivered reply in `PollConsumesReplies`. */
  lemma ConsumedAfterDelivered(replies: seq<RunReply>, run: Run, u: PollTrace, t: PollTrace)
    requires replies != [] && |u.seen| >= 1 && replies[0] == Delivered(u.seen[0])
    requires t.seen == [run] + u.seen && t.remaining == u.remaining
    requires var usedU := |replies[1..]| - |u.remaining|;
      0 <= usedU && u.remaining == replies[1..][usedU..] &&
      (forall i :: 0 <= i < usedU && i + 1 < |u.seen| ==> replies[1..][i] == Delivered(u.seen[i + 1]))
    ensures var used := |replies| - |t.remaining|;
      0 <= used && t.remaining == replies[used..] &&
      (forall i :: 0 <= i < used && i + 1 < |t.seen| ==> replies[i] == Delivered(t.seen[i + 1]))
  {
    var usedU := |replies[1..]| - |u.remaining|;
    assert replies[1..][usedU..] == replies[usedU + 1..];
    forall i | 0 <= i < usedU + 1 && i + 1 < |t.seen|
      ensures replies[i] == Delivered(t.seen[i + 1])
    {
      assert t.seen[i + 1] == u.seen[i];
      if i > 0 {
        assert replies[1..][i - 1] == replies[i];
      }
    }
  }

  /** Each reply a poll consumes, up to the last run it sees, is the next run it sees, in order. */
  lemma {:induction false} PollConsumesReplies(batch: BatchFn, threadId: string, listed: seq<Message>,
                                               run: Run, replies: seq<RunReply>)
    ensures var t := Poll(batch, threadId, listed, run, replies);
      var used := |replies| - |t.remaining|;
      0 <= used && t.remaining == replies[used..] &&
      (forall i :: 0 <= i < used && i + 1 < |t.seen| ==> replies[i] == Delivered(t.seen[i + 1]))
    decreases |replies|, if Dispatches(run) then 1 else 0
  {
    var t := Poll(batch, threadId, listed, run, replies);
    if run.status != Completed && Dispatches(run) && batch(run.toolCalls.value).Some? {
      PollDispatchStep(batch, threadId, listed, run, replies);
      if replies == [] {
        var expired := Run(run.id, Expired, None);
        assert Poll(batch, threadId, listed, expired, []).remaining == [];
      } else {
        match replies[0]
        case Rejected(_) =>
          assert t.remaining == replies[1..] && |t.seen| == 1;
        case Delivered(next) =>
          var u := Poll(batch, threadId, listed, next, replies[1..]);
          PollConsumesReplies(batch, threadId, listed, next, replies[1..]);
          PollSeesRunFirst(batch, threadId, listed, next, replies[1..]);
          ConsumedAfterDelivered(replies, run, u, t);
      }
    } else {
      assert t.remaining == replies && replies[0..] == replies;
    }
  }

  /**
   * How many replies a poll consumes: one per run seen after the first, plus
   * the rejection that ends it, if one does. One fewer than the runs seen
   * after the first means the script ran out and the last run seen is the
   * synthetic expired run.
   */
  lemma {:induction false} PollConsumesOnePerRun(batch: BatchFn, threadId: string, listed: seq<Message>,
                                                 run: Run, replies: seq<RunReply>)
    ensures var t := Poll(batch, threadId, listed, run, replies);
      var used := |replies| - |t.remaining|;
      |t.seen| >= 1 && |t.seen| - 2 <= used <= |t.seen| &&
      (used == |t.seen| - 2 ==> t.remaining == [] && t.seen[|t.seen| - 1].status == Expired) &&
      (used == |t.seen| ==> replies[used - 1].Rejected? && t.outcome == Err(RemoteFailure(replies[used - 1].reason))) &&
      (t.outcome.Err? && t.outcome.error.RemoteFailure? ==> used == |t.seen|)
    decreases |replies|, if Dispatches(run) then 1 else 0
  {
    var t := Poll(batch, threadId, listed, run, replies);
    if run.status != Completed && Dispatches(run) && batch(run.toolCalls.value).Some? {
      PollDispatchStep(batch, threadId, listed, run, replies);
      if replies == [] {
        var expired := Run(run.id, Expired, None);
        assert Poll(batch, threadId, listed, expired, []).seen == [expired];
        assert t.seen == [run, expired] && t.remaining == [];
      } else {
        match replies[0]
        case Rejected(_) =>
          assert t.seen == [run] && t.remaining == replies[1..];
        case Delivered(next) =>
          var u := Poll(batch, threadId, listed, next, replies[1..]);
          PollConsumesOnePerRun(batch, threadId, listed, next, replies[1..]);
          var usedU := |replies[1..]| - |u.remaining|;
          assert t.seen == [run] + u.seen && t.remaining == u.remaining && t.outcome == u.outcome;
          assert |replies| - |t.remaining| == usedU + 1 && |t.seen| == |u.seen| + 1;
          if usedU == |u.seen| {
            assert replies[usedU] == replies[1..][usedU - 1];
          }
      }
    } else {
      assert t.seen == [run] && t.remaining == replies;
    }
  }

  // ---------------------------------------------------------------- stream mode

  /** Where a relayed event came from: the run's own stream, or the k-th nested submit stream. */
  datatype Origin = Primary | Nested(cycle: nat)

  datatype Relayed = Relayed(origin: Origin, event: StreamEvent)

  /** The relay's effect: what the caller's emitter received, the batches submitted, the unused streams. */
  datatype RelayTrace = RelayTrace(log: seq<Relayed>, submitted: seq<Submission>, remaining: seq<seq<StreamEvent>>)

  /**
   * The outputs an event triggers: only an event whose kind is exactly
   * `thread.run.requires_action` and that carries its tool calls dispatches,
   * and only a batch whose tools all succeed is submitted (a missing
   * `required_action` or a failed batch is caught and logged).
   */
  function Triggered(batch: BatchFn, e: StreamEvent): (r: Option<seq<ToolOutput>>)
    ensures r.Some? ==> e.kind == RequiresActionEvent && e.toolCalls.Some?
  {
    if e.kind == RequiresActionEvent && e.toolCalls.Some? then batch(e.toolCalls.value) else None
  }

  /** The remote's next event stream; once the script is spent the stream is empty. */
  function NextStream(streams: seq<seq<StreamEvent>>): seq<StreamEvent> {
    if streams == [] then [] else streams[0]
  }

  function Tag(o: Origin, events: seq<StreamEvent>): (r: seq<Relayed>)
    ensures |r| == |events|
    ensures forall i :: 0 <= i < |r| ==> r[i] == Relayed(o, events[i])
  {
    seq(|events|, i requires 0 <= i < |events| => Relayed(o, events[i]))
  }

  /** The events as the emitter holds them, without their origin. */
  function Events(log: seq<Relayed>): (r: seq<StreamEvent>)
    ensures |r| == |log|
    ensures forall i :: 0 <= i < |r| ==> r[i] == log[i].event
  {
    seq(|log|, i requires 0 <= i < |log| => log[i].event)
  }

  /** The events of one origin, in the order they were relayed. */
  function From(log: seq<Relayed>, o: Origin): (r: seq<StreamEvent>)
    ensures |r| <= |log|
  {
    if log == [] then []
    else (if log[0].origin == o then [log[0].event] else []) + From(log[1..], o)
  }

  /**
   * `onStreamEvent` over a run stream, dispatch taken sequentially: each event
   * is emitted first, then inspected; a triggering event submits its batch
   * through a nested stream whose events are forwarded only, never inspected.
   */
  function Relay(batch: BatchFn, events: seq<StreamEvent>, streams: seq<seq<StreamEvent>>, cycle: nat): RelayTrace
    decreases |events|
  {
    if events == [] then RelayTrace([], [], streams)
    else
      var e := events[0];
      match Triggered(batch, e)
      case None =>
        var t := Relay(batch, events[1..], streams, cycle);
        RelayTrace([Relayed(Primary, e)] + t.log, t.submitted, t.remaining)
      case Some(outs) =>
        var t := Relay(batch, events[1..], Rest(streams), cycle + 1);
        RelayTrace([Relayed(Primary, e)] + Tag(Nested(cycle), NextStream(streams)) + t.log,
                   [Submission(e.threadId, e.runId, outs)] + t.submitted,
                   t.remaining)
  }

  /** One step of `Relay` as the emitter sees it, unfolded. */
  lemma RelayStep(batch: BatchFn, events: seq<StreamEvent>, streams: seq<seq<StreamEvent>>, cycle: nat)
    requires events != []
    ensures var t := Relay(batch, events, streams, cycle);
      var e := events[0];
      var outs := Triggered(batch, e);
      (outs.None? ==>
        var u := Relay(batch, events[1..], streams, cycle);
        Events(t.log) == [e] + Events(u.log) && t.submitted == u.submitted && t.remaining == u.remaining) &&
      (outs.Some? ==>
        var u := Relay(batch, events[1..], Rest(streams), cycle + 1);
        Events(t.log) == [e] + NextStream(streams) + Events(u.log) &&
        t.submitted == [Submission(e.threadId, e.runId, outs.value)] + u.submitted && t.remaining == u.remaining)
  {
    var e := events[0];
    match Triggered(batch, e)
    case None =>
      var u := Relay(batch, events[1..], streams, cycle);
      assert Events([Relayed(Primary, e)] + u.log) == [e] + Events(u.log);
    case Some(outs) =>
      var u := Relay(batch, events[1..], Rest(streams), cycle + 1);
      var nested := Tag(Nested(cycle), NextStream(streams));
      assert Events([Relayed(Primary, e)] + nested + u.log) == [e] + Events(nested) + Events(u.log);
      assert Events(nested) == NextStream(streams);
  }

  lemma {:induction false} FromAppend(a: seq<Relayed>, b: seq<Relayed>, o: Origin)
    ensures From(a + b, o) == From(a, o) + From(b, o)
    decreases |a|
  {
    if a == [] {
      assert a + b == b;
    } else {
      var ab := a + b;
      assert ab[0] == a[0];
      assert ab[1..] == a[1..] + b;
      FromAppend(a[1..], b, o);
      var h := if a[0].origin == o then [a[0].event] else [];
      calc {
        From(ab, o);
        h + From(a[1..] + b, o);
        h + (From(a[1..], o) + From(b, o));
        (h + From(a[1..], o)) + From(b, o);
      }
    }
  }

  /** One step of the relay as the emitter's log sees it. */
  lemma FromPrimaryStep(e: StreamEvent, rest: seq<Relayed>, o: Origin)
    ensures From([Relayed(Primary, e)] + rest, o) == (if o == Primary then [e] else []) + From(rest, o)
  {
    assert ([Relayed(Primary, e)] + rest)[1..] == rest;
  }

  /** One triggering step of the relay: the event, then its nested stream, then the rest. */
  lemma FromTriggeredStep(e: StreamEvent, c: nat, nested: seq<StreamEvent>, rest: seq<Relayed>, o: Origin)
    ensures From([Relayed(Primary, e)] + Tag(Nested(c), nested) + rest, o) ==
            (if o == Primary then [e] else []) + (if o == Nested(c) then nested else []) + From(rest, o)
  {
    assert [Relayed(Primary, e)] + Tag(Nested(c), nested) + rest == [Relayed(Primary, e)] + (Tag(Nested(c), nested) + rest);
    FromPrimaryStep(e, Tag(Nested(c), nested) + rest, o);
    FromAppend(Tag(Nested(c), nested), rest, o);
    FromTag(Nested(c), nested, o);
  }

  lemma {:induction false} FromTag(o: Origin, events: seq<StreamEvent>, p: Origin)
    ensures From(Tag(o, events), p) == if o == p then events else []
    decreases |events|
  {
    if events != [] {
      assert Tag(o, events)[1..] == Tag(o, events[1..]);
      FromTag(o, events[1..], p);
    }
  }

  /** Every event of the run's own stream reaches the emitter, in arrival order. */
  lemma {:induction false} RelayForwardsEveryEvent(batch: BatchFn, events: seq<StreamEvent>,
                                                   streams: seq<seq<StreamEvent>>, cycle: nat)
    ensures From(Relay(batch, events, streams, cycle).log, Primary) == events
    decreases |events|
  {
    if events != [] {
      var e := events[0];
      match Triggered(batch, e)
      case None =>
        var t := Relay(batch, events[1..], streams, cycle);
        RelayForwardsEveryEvent(batch, events[1..], streams, cycle);
        FromPrimaryStep(e, t.log, Primary);
      case Some(outs) =>
        var t := Relay(batch, events[1..], Rest(streams), cycle + 1);
        RelayForwardsEveryEvent(batch, events[1..], Rest(streams), cycle + 1);
        FromTriggeredStep(e, cycle, NextStream(streams), t.log, Primary);
    }
  }

  /** The nested streams of a relay are numbered from its first cycle on. */
  lemma {:induction false} RelayCyclesFrom(batch: BatchFn, events: seq<StreamEvent>,
                                           streams: seq<seq<StreamEvent>>, cycle: nat, k: nat)
    requires k < cycle
    ensures From(Relay(batch, events, streams, cycle).log, Nested(k)) == []
    decreases |events|
  {
    if events != [] {
      var e := events[0];
      match Triggered(batch, e)
      case None =>
        var t := Relay(batch, events[1..], streams, cycle);
        assert Relay(batch, events, streams, cycle).log == [Relayed(Primary, e)] + t.log;
        RelayCyclesFrom(batch, events[1..], streams, cycle, k);
        FromPrimaryStep(e, t.log, Nested(k));
      case Some(outs) =>
        var t := Relay(batch, events[1..], Rest(streams), cycle + 1);
        assert Relay(batch, events, streams, cycle).log ==
               [Relayed(Primary, e)] + Tag(Nested(cycle), NextStream(streams)) + t.log;
        RelayCyclesFrom(batch, events[1..], Rest(streams), cycle + 1, k);
        assert Nested(k) != Nested(cycle);
        FromTriggeredStep(e, cycle, NextStream(streams), t.log, Nested(k));
    }
  }

  /** Every event of the k-th nested submit stream reaches the emitter, in its own order. */
  lemma {:induction false} RelayForwardsNestedStream(batch: BatchFn, events: seq<StreamEvent>,
                                                     streams: seq<seq<StreamEvent>>, cycle: nat, k: nat)
    requires k < |Relay(batch, events, streams, cycle).submitted|
    ensures From(Relay(batch, events, streams, cycle).log, Nested(cycle + k)) ==
            if k < |streams| then streams[k] else []
    decreases |events|
  {
    var r := Relay(batch, events, streams, cycle);
    var e := events[0];
    match Triggered(batch, e)
    case None =>
      var t := Relay(batch, events[1..], streams, cycle);
      assert r.log == [Relayed(Primary, e)] + t.log && r.submitted == t.submitted;
      RelayForwardsNestedStream(batch, events[1..], streams, cycle, k);
      FromPrimaryStep(e, t.log, Nested(cycle + k));
    case Some(outs) =>
      var t := Relay(batch, events[1..], Rest(streams), cycle + 1);
      assert r.log == [Relayed(Primary, e)] + Tag(Nested(cycle), NextStream(streams)) + t.log;
      assert r.submitted == [Submission(e.threadId, e.runId, outs)] + t.submitted;
      FromTriggeredStep(e, cycle, NextStream(streams), t.log, Nested(cycle + k));
      if k == 0 {
        RelayCyclesFrom(batch, events[1..], Rest(streams), cycle + 1, cycle);
      } else {
        assert k - 1 < |t.submitted|;
        RelayForwardsNestedStream(batch, events[1..], Rest(streams), cycle + 1, k - 1);
        assert cycle + 1 + (k - 1) == cycle + k;
        assert Nested(cycle + k) != Nested(cycle);
        if k < |streams| {
          assert Rest(streams)[k - 1] == streams[k];
        }
      }
  }

  /**
   * Only the run's own events drive dispatch: the batches submitted do not
   * depend on what the nested streams carry, so a `requires_action` inside a
   * nested stream is forwarded and nothing more.
   */
  lemma {:induction false} NestedEventsNeverDispatch(batch: BatchFn, events: seq<StreamEvent>,
                                                     streams: seq<seq<StreamEvent>>, other: seq<seq<StreamEvent>>,
                                                     cycle: nat)
    ensures Relay(batch, events, streams, cycle).submitted == Relay(batch, events, other, cycle).submitted
    decreases |events|
  {
    if events != [] {
      match Triggered(batch, events[0])
      case None =>
        NestedEventsNeverDispatch(batch, events[1..], streams, other, cycle);
      case Some(_) =>
        NestedEventsNeverDispatch(batch, events[1..], Rest(streams), Rest(other), cycle + 1);
    }
  }

  /** The batch submitted for a triggering event: its outputs, addressed to its run and thread. */
  predicate AnswersEvent(batch: BatchFn, s: Submission, e: StreamEvent) {
    s == Submission(e.threadId, e.runId, s.outputs) && Triggered(batch, e) == Some(s.outputs)
  }

  /**
   * Each batch answers a `thread.run.requires_action` event of the run's own
   * stream, addressed to that event's run and thread; with no such event
   * nothing is submitted and the emitter receives exactly the run's events.
   */
  lemma {:induction false} SubmissionsAnswerRequiresAction(batch: BatchFn, events: seq<StreamEvent>,
                                                           streams: seq<seq<StreamEvent>>, cycle: nat)
    ensures var t := Relay(batch, events, streams, cycle);
      |t.submitted| <= |events| &&
      (forall s :: s in t.submitted ==>
         exists e :: e in events && e.kind == RequiresActionEvent && AnswersEvent(batch, s, e)) &&
      ((forall e :: e in events ==> e.kind != RequiresActionEvent) ==> t.submitted == [] && Events(t.log) == events)
    decreases |events|
  {
    if events != [] {
      var e := events[0];
      match Triggered(batch, e)
      case None =>
        SubmissionsAnswerRequiresAction(batch, events[1..], streams, cycle);
        var t := Relay(batch, events[1..], streams, cycle);
        forall s | s in t.submitted
          ensures exists e :: e in events && e.kind == RequiresActionEvent && AnswersEvent(batch, s, e)
        {
          var d :| d in events[1..] && d.kind == RequiresActionEvent && AnswersEvent(batch, s, d);
          assert d in events;
        }
        if forall e :: e in events ==> e.kind != RequiresActionEvent {
          assert forall d :: d in events[1..] ==> d in events;
          assert Events(Relay(batch, events, streams, cycle).log) == [e] + Events(t.log);
        }
      case Some(outs) =>
        SubmissionsAnswerRequiresAction(batch, events[1..], Rest(streams), cycle + 1);
        var t := Relay(batch, events[1..], Rest(streams), cycle + 1);
        forall s | s in t.submitted
          ensures exists e :: e in events && e.kind == RequiresActionEvent && AnswersEvent(batch, s, e)
        {
          var d :| d in events[1..] && d.kind == RequiresActionEvent && AnswersEvent(batch, s, d);
          assert d in events;
        }
    }
  }
}
