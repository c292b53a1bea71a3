/**
 * The `OpenAIService` class of src/lib/openai-service.ts over an abstract
 * remote assistant service. The remote keeps a thread counter, the message
 * log, scripted run replies (poll mode), scripted event streams (stream
 * mode) and the log of submitted tool outputs; the caller's `EventEmitter`
 * is an event log. Each method is proved against the value-level
 * definitions of the `Orchestration` module.
 */
module Service {
  import opened Wrappers
  import opened JsonValue
  import opened ToolRegistry
  import opened Orchestration

  /** The id the remote gives its n-th new thread. */
  function ThreadIdFor(n: nat): (id: string)
    ensures |id| > 7 && id[..7] == "thread_"
  {
    "thread_" + Decimal(n)
  }

  /** `threadId || create()`: an absent or empty id is replaced by the next new thread's. */
  function ResolvedThreadId(threadId: Option<string>, threadCount: nat): (id: string)
    ensures id != ""
    ensures threadId.Some? && threadId.value != "" ==> id == threadId.value
    ensures threadId.None? || threadId.value == "" ==> id == ThreadIdFor(threadCount)
  {
    if threadId.Some? && threadId.value != "" then threadId.value else ThreadIdFor(threadCount)
  }

  /** Whether resolving the id creates a thread. */
  predicate CreatesThread(threadId: Option<string>) {
    threadId.None? || threadId.value == ""
  }

  /** The messages of one thread, in log order. */
  function ThreadMessages(log: seq<Message>, threadId: string): (ms: seq<Message>)
    ensures |ms| <= |log|
    ensures forall m :: m in ms <==> m in log && m.threadId == threadId
  {
    if log == [] then []
    else ThreadMessages(log[..|log| - 1], threadId) +
         (if log[|log| - 1].threadId == threadId then [log[|log| - 1]] else [])
  }

  /** Posting to a thread adds exactly that message to the end of its list and leaves other threads' lists alone. */
  lemma {:induction false} PostedMessageListed(log: seq<Message>, m: Message, threadId: string)
    ensures ThreadMessages(log + [m], threadId) ==
            ThreadMessages(log, threadId) + (if m.threadId == threadId then [m] else [])
  {
    assert (log + [m])[..|log + [m]| - 1] == log;
  }

  /** A snapshot of everything the remote holds. */
  datatype RemoteState = RemoteState(
    threadCount: nat,
    log: seq<Message>,
    runScript: seq<RunReply>,
    streamScript: seq<seq<StreamEvent>>,
    submissions: seq<Submission>)

  /** The remote assistant service, scripted: it answers run requests from `runScript` and `streamScript`. */
  class RemoteService {
    var threadCount: nat
    var log: seq<Message>
    var runScript: seq<RunReply>
    var streamScript: seq<seq<StreamEvent>>
    var submissions: seq<Submission>

    constructor(log: seq<Message>, runScript: seq<RunReply>, streamScript: seq<seq<StreamEvent>>)
      ensures State() == RemoteState(0, log, runScript, streamScript, [])
    {
      this.threadCount := 0;
      this.log := log;
      this.runScript := runScript;
      this.streamScript := streamScript;
      this.submissions := [];
    }

    function State(): RemoteState
      reads this
    {
      RemoteState(threadCount, log, runScript, streamScript, submissions)
    }

    /** `threads.create()`. */
    method CreateThread() returns (id: string)
      modifies this
      ensures id == ThreadIdFor(old(threadCount))
      ensures State() == old(State()).(threadCount := old(threadCount) + 1)
    {
      id := ThreadIdFor(threadCount);
      threadCount := threadCount + 1;
    }

    /** `threads.messages.create(threadId, { role, content })`. */
    method PostMessage(threadId: string, role: Role, content: string)
      modifies this
      ensures State() == old(State()).(log := old(log) + [Message(threadId, role, content)])
    {
      log := log + [Message(threadId, role, content)];
    }

    /** `threads.messages.list(threadId)`. */
    function ListMessages(threadId: string): seq<Message>
      reads this
    {
      ThreadMessages(log, threadId)
    }

    /** `runs.createAndPoll(threadId, ...)`. */
    method CreateAndPoll(threadId: string) returns (reply: RunReply)
      modifies this
      ensures reply == NextReply(old(runScript), "")
      ensures State() == old(State()).(runScript := Rest(old(runScript)))
    {
      reply := NextReply(runScript, "");
      runScript := Rest(runScript);
    }

    /** `runs.submitToolOutputsAndPoll(threadId, runId, { tool_outputs })`. */
    method SubmitToolOutputsAndPoll(threadId: string, runId: string, outputs: seq<ToolOutput>) returns (reply: RunReply)
      modifies this
      ensures reply == NextReply(old(runScript), runId)
      ensures State() == old(State()).(runScript := Rest(old(runScript)),
                                       submissions := old(submissions) + [Submission(threadId, runId, outputs)])
    {
      reply := NextReply(runScript, runId);
      runScript := Rest(runScript);
      submissions := submissions + [Submission(threadId, runId, outputs)];
    }

    /** `runs.stream(threadId, ...)`: the events the run stream will deliver. */
    method Stream(threadId: string) returns (events: seq<StreamEvent>)
      modifies this
      ensures events == NextStream(old(streamScript))
      ensures State() == old(State()).(streamScript := Rest(old(streamScript)))
    {
      events := NextStream(streamScript);
      streamScript := Rest(streamScript);
    }

    /** `runs.submitToolOutputsStream(threadId, runId, { tool_outputs })`. */
    method SubmitToolOutputsStream(threadId: string, runId: string, outputs: seq<ToolOutput>) returns (events: seq<StreamEvent>)
      modifies this
      ensures events == NextStream(old(streamScript))
      ensures State() == old(State()).(streamScript := Rest(old(streamScript)),
                                       submissions := old(submissions) + [Submission(threadId, runId, outputs)])
    {
      events := NextStream(streamScript);
      streamScript := Rest(streamScript);
      submissions := submissions + [Submission(threadId, runId, outputs)];
    }
  }

  /** The caller's `EventEmitter`: the events emitted on `'event'`, in order. */
  class Emitter {
    var log: seq<StreamEvent>

    constructor()
      ensures log == []
    {
      log := [];
    }

    method Emit(e: StreamEvent)
      modifies this
      ensures log == old(log) + [e]
    {
      log := log + [e];
    }
  }

  /** What `handleRequiresAction` resolves to. */
  datatype Handled =
    | Resumed(run: Run)             // the run returned by the polling submit
    | NoRun                         // `undefined`: a failed batch, or the streaming submit
    | SubmitRejected(reason: string) // the un-awaited polling submit rejected

  function FromReply(reply: RunReply): (h: Handled)
    ensures h != NoRun
    ensures reply.Delivered? <==> h.Resumed?
    ensures reply.Delivered? ==> h == Resumed(reply.run)
    ensures reply.Rejected? ==> h == SubmitRejected(reply.reason)
  {
    match reply
    case Delivered(run) => Resumed(run)
    case Rejected(reason) => SubmitRejected(reason)
  }

  /** The result of `chat`. */
  datatype ChatResult = ChatResult(messages: Option<seq<Message>>, threadId: string)

  class OpenAIService {
    const remote: RemoteService
    const assistantId: string
    const tools: ToolEnv
    const parse: Parser

    constructor(remote: RemoteService, assistantId: string, tools: ToolEnv, parse: Parser)
      ensures this.remote == remote && this.assistantId == assistantId
      ensures this.tools == tools && this.parse == parse
    {
      this.remote := remote;
      this.assistantId := assistantId;
      this.tools := tools;
      this.parse := parse;
    }

    /** `callTools` bound to this service's tools and parser. */
    function Batch(): BatchFn {
      calls => CallTools(tools, parse, calls)
    }

    /** `getThreadId`: a non-empty id is kept; otherwise exactly one thread is created. */
    method GetThreadId(threadId: Option<string>) returns (id: string)
      modifies remote
      ensures id == ResolvedThreadId(threadId, old(remote.threadCount))
      ensures remote.State() == old(remote.State()).(
        threadCount := old(remote.threadCount) + if CreatesThread(threadId) then 1 else 0)
    {
      if threadId.Some? && threadId.value != "" {
        id := threadId.value;
      } else {
        id := remote.CreateThread();
      }
    }

    /** `createMessage`: one user message with the content, posted to the resolved thread. */
    method CreateMessage(content: string, threadId: Option<string>) returns (id: string)
      modifies remote
      ensures id == ResolvedThreadId(threadId, old(remote.threadCount))
      ensures remote.State() == old(remote.State()).(
        threadCount := old(remote.threadCount) + (if CreatesThread(threadId) then 1 else 0),
        log := old(remote.log) + [Message(id, User, content)])
    {
      id := GetThreadId(threadId);
      remote.PostMessage(id, User, content);
    }

    /** `submitToolOutputs`: the remote's promise is returned un-awaited, so its `catch` never runs. */
    method SubmitToolOutputs(outputs: seq<ToolOutput>, runId: string, threadId: string) returns (reply: RunReply)
      modifies remote
      ensures reply == NextReply(old(remote.runScript), runId)
      ensures remote.State() == old(remote.State()).(
        runScript := Rest(old(remote.runScript)),
        submissions := old(remote.submissions) + [Submission(threadId, runId, outputs)])
    {
      reply := remote.SubmitToolOutputsAndPoll(threadId, runId, outputs);
    }

    /** `submitToolOutputsStream`: every event of the nested stream goes to the emitter, when there is one. */
    method SubmitToolOutputsStream(outputs: seq<ToolOutput>, runId: string, threadId: string, emitter: Emitter?)
      returns (events: seq<StreamEvent>)
      modifies remote, emitter
      ensures events == NextStream(old(remote.streamScript))
      ensures remote.State() == old(remote.State()).(
        streamScript := Rest(old(remote.streamScript)),
        submissions := old(remote.submissions) + [Submission(threadId, runId, outputs)])
      ensures emitter != null ==> emitter.log == old(emitter.log) + events
    {
      events := remote.SubmitToolOutputsStream(threadId, runId, outputs);
      if emitter != null {
        var i := 0;
        while i < |events|
          invariant 0 <= i <= |events|
          invariant emitter.log == old(emitter.log) + events[..i]
          invariant remote.State() == old(remote.State()).(
            streamScript := Rest(old(remote.streamScript)),
            submissions := old(remote.submissions) + [Submission(threadId, runId, outputs)])
        {
          emitter.Emit(events[i]);
          assert events[..i + 1] == events[..i] + [events[i]];
          i := i + 1;
        }
        assert events[..i] == events;
      }
    }

    /**
     * `handleRequiresAction`: a failed batch is caught and yields no run;
     * without an emitter the batch goes through the polling submit and its
     * run (or rejection) is passed on; with one it goes through the
     * streaming submit and no run is returned.
     */
    method HandleRequiresAction(calls: seq<ToolCall>, runId: string, threadId: string, emitter: Emitter?)
      returns (h: Handled)
      modifies remote, emitter
      ensures Batch()(calls).None? ==>
        h == NoRun && remote.State() == old(remote.State()) && (emitter != null ==> emitter.log == old(emitter.log))
      ensures Batch()(calls).Some? && emitter == null ==>
        h == FromReply(NextReply(old(remote.runScript), runId)) &&
        remote.State() == old(remote.State()).(
          runScript := Rest(old(remote.runScript)),
          submissions := old(remote.submissions) + [Submission(threadId, runId, Batch()(calls).value)])
      ensures Batch()(calls).Some? && emitter != null ==>
        h == NoRun &&
        emitter.log == old(emitter.log) + NextStream(old(remote.streamScript)) &&
        remote.State() == old(remote.State()).(
          streamScript := Rest(old(remote.streamScript)),
          submissions := old(remote.submissions) + [Submission(threadId, runId, Batch()(calls).value)])
    {
      match Batch()(calls)
      case None =>
        h := NoRun;
      case Some(outputs) =>
        if emitter == null {
          var reply := SubmitToolOutputs(outputs, runId, threadId);
          h := FromReply(reply);
        } else {
          var _ := SubmitToolOutputsStream(outputs, runId, threadId, emitter);
          h := NoRun;
        }
    }

    /**
     * `handleRunStatus`, its recursion turned into a loop: the outcome, the
     * batches submitted and the replies consumed are those of `Poll`.
     */
    method HandleRunStatus(run: Run, threadId: string) returns (r: Result<Option<seq<Message>>, ChatError>)
      modifies remote
      ensures var t := Poll(Batch(), threadId, old(remote.ListMessages(threadId)), run, old(remote.runScript));
        r == t.outcome &&
        remote.State() == old(remote.State()).(runScript := t.remaining, submissions := old(remote.submissions) + t.submitted)
    {
      ghost var listed := remote.ListMessages(threadId);
      ghost var t0 := Poll(Batch(), threadId, listed, run, remote.runScript);
      var current := run;
      while true
        invariant remote.threadCount == old(remote.threadCount) && remote.log == old(remote.log)
        invariant remote.streamScript == old(remote.streamScript)
        invariant var t := Poll(Batch(), threadId, listed, current, remote.runScript);
          t.outcome == t0.outcome && t.remaining == t0.remaining &&
          old(remote.submissions) + t0.submitted == remote.submissions + t.submitted
        decreases |remote.runScript|, if Dispatches(current) then 1 else 0
      {
        if current.status == Completed {
          r := Ok(Some(remote.ListMessages(threadId)));
          return;
        } else if current.status == RequiresAction && current.toolCalls.Some? {
          if Batch()(current.toolCalls.value).Some? {
            PollDispatchStep(Batch(), threadId, listed, current, remote.runScript);
          }
          var h := HandleRequiresAction(current.toolCalls.value, current.id, threadId, null);
          match h
          case NoRun =>
            r := Err(MissingRun);
            return;
          case SubmitRejected(reason) =>
            r := Err(RemoteFailure(reason));
            return;
          case Resumed(next) =>
            current := next;
        } else {
          r := Ok(None);
          return;
        }
      }
    }

    /**
     * `chat`: post the message, create and poll a run, then follow its
     * status. Every error, including the escaped submission rejection and
     * the TypeError of a missing run, is rethrown.
     */
    method Chat(content: string, threadId: Option<string>) returns (r: Result<ChatResult, ChatError>)
      modifies remote
      ensures var id := ResolvedThreadId(threadId, old(remote.threadCount));
        var log := old(remote.log) + [Message(id, User, content)];
        remote.threadCount == old(remote.threadCount) + (if CreatesThread(threadId) then 1 else 0) &&
        remote.log == log &&
        remote.streamScript == old(remote.streamScript) &&
        match NextReply(old(remote.runScript), "")
        case Rejected(reason) =>
          r == Err(RemoteFailure(reason)) && remote.runScript == Rest(old(remote.runScript)) &&
          remote.submissions == old(remote.submissions)
        case Delivered(first) =>
          var t := Poll(Batch(), id, ThreadMessages(log, id), first, Rest(old(remote.runScript)));
          r == (if t.outcome.Ok? then Ok(ChatResult(t.outcome.value, id)) else Err(t.outcome.error)) &&
          remote.runScript == t.remaining &&
          remote.submissions == old(remote.submissions) + t.submitted
    {
      var id := CreateMessage(content, threadId);
      var reply := remote.CreateAndPoll(id);
      match reply
      case Rejected(reason) =>
        r := Err(RemoteFailure(reason));
      case Delivered(first) =>
        var messages := HandleRunStatus(first, id);
        if messages.Ok? {
          r := Ok(ChatResult(messages.value, id));
        } else {
          r := Err(messages.error);
        }
    }

    /**
     * `onStreamEvent`: emit the event, then dispatch it if it is exactly a
     * `thread.run.requires_action` carrying tool calls. A missing
     * `required_action` and a failed batch are caught and logged.
     */
    method OnStreamEvent(e: StreamEvent, emitter: Emitter?)
      modifies remote, emitter
      ensures emitter != null ==>
        emitter.log == old(emitter.log) + [e] +
          (if Triggered(Batch(), e).Some? then NextStream(old(remote.streamScript)) else [])
      ensures Triggered(Batch(), e).None? ==> remote.State() == old(remote.State())
      ensures Triggered(Batch(), e).Some? && emitter != null ==>
        remote.State() == old(remote.State()).(
          streamScript := Rest(old(remote.streamScript)),
          submissions := old(remote.submissions) + [Submission(e.threadId, e.runId, Triggered(Batch(), e).value)])
      ensures Triggered(Batch(), e).Some? && emitter == null ==>
        remote.State() == old(remote.State()).(
          runScript := Rest(old(remote.runScript)),
          submissions := old(remote.submissions) + [Submission(e.threadId, e.runId, Triggered(Batch(), e).value)])
    {
      if emitter != null {
        emitter.Emit(e);
      }
      if e.kind == RequiresActionEvent {
        if e.toolCalls.Some? {
          var _ := HandleRequiresAction(e.toolCalls.value, e.runId, e.threadId, emitter);
        }
      }
    }

    /**
     * `chatStream`: post the message, open the run stream and relay each of
     * its events through `onStreamEvent` into a fresh emitter. The emitter
     * receives the events of `Relay`, and the remote receives its batches.
     */
    method ChatStream(content: string, threadId: Option<string>) returns (emitter: Emitter)
      modifies remote
      ensures fresh(emitter)
      ensures remote.threadCount == old(remote.threadCount) + (if CreatesThread(threadId) then 1 else 0)
      ensures remote.log == old(remote.log) + [Message(ResolvedThreadId(threadId, old(remote.threadCount)), User, content)]
      ensures remote.runScript == old(remote.runScript)
      ensures var t := Relay(Batch(), NextStream(old(remote.streamScript)), Rest(old(remote.streamScript)), 0);
        emitter.log == Events(t.log) &&
        remote.streamScript == t.remaining &&
        remote.submissions == old(remote.submissions) + t.submitted
    {
      var id := CreateMessage(content, threadId);
      emitter := new Emitter();
      var events := remote.Stream(id);
      RelayEvents(events, emitter);
    }

    /** `stream.on('event', e => this.onStreamEvent(e, eventHandler))`, the events taken in arrival order. */
    method RelayEvents(events: seq<StreamEvent>, emitter: Emitter)
      modifies remote, emitter
      ensures var t := Relay(Batch(), events, old(remote.streamScript), 0);
        emitter.log == old(emitter.log) + Events(t.log) &&
        remote.State() == old(remote.State()).(streamScript := t.remaining, submissions := old(remote.submissions) + t.submitted)
    {
      ghost var t0 := Relay(Batch(), events, remote.streamScript, 0);
      ghost var cycle: nat := 0;
      var i := 0;
      while i < |events|
        invariant 0 <= i <= |events|
        invariant remote.threadCount == old(remote.threadCount) && remote.log == old(remote.log)
        invariant remote.runScript == old(remote.runScript)
        invariant var t := Relay(Batch(), events[i..], remote.streamScript, cycle);
          old(emitter.log) + Events(t0.log) == emitter.log + Events(t.log) &&
          old(remote.submissions) + t0.submitted == remote.submissions + t.submitted && t0.remaining == t.remaining
      {
        ghost var streams, subs, before := remote.streamScript, remote.submissions, emitter.log;
        OnStreamEvent(events[i], emitter);
        assert events[i..][0] == events[i] && events[i..][1..] == events[i + 1..];
        match Triggered(Batch(), events[i]) {
          case None =>
            RelayAdvanceQuiet(Batch(), events[i..], cycle, streams, subs, before);
          case Some(outs) =>
            RelayAdvanceTriggered(Batch(), events[i..], cycle, outs, streams, subs, before);
            cycle := cycle + 1;
        }
        i := i + 1;
      }
      assert events[i..] == [];
    }
  }

  /** An event of `RelayEvents` that triggers nothing: `onStreamEvent` only emitted it. */
  lemma RelayAdvanceQuiet(batch: BatchFn, es: seq<StreamEvent>, cycle: nat,
                          streams: seq<seq<StreamEvent>>, subs: seq<Submission>, before: seq<StreamEvent>)
    requires es != [] && Triggered(batch, es[0]).None?
    ensures var t := Relay(batch, es, streams, cycle);
      var u := Relay(batch, es[1..], streams, cycle);
      before + Events(t.log) == (before + [es[0]]) + Events(u.log) &&
      subs + t.submitted == subs + u.submitted && t.remaining == u.remaining
  {
    RelayStep(batch, es, streams, cycle);
    SeqAssoc(before, [es[0]], Events(Relay(batch, es[1..], streams, cycle).log));
  }

  /** A triggering event of `RelayEvents`: `onStreamEvent` emitted it, submitted its batch and forwarded the nested stream. */
  lemma RelayAdvanceTriggered(batch: BatchFn, es: seq<StreamEvent>, cycle: nat, outs: seq<ToolOutput>,
                              streams: seq<seq<StreamEvent>>, subs: seq<Submission>, before: seq<StreamEvent>)
    requires es != [] && Triggered(batch, es[0]) == Some(outs)
    ensures var t := Relay(batch, es, streams, cycle);
      var u := Relay(batch, es[1..], Rest(streams), cycle + 1);
      before + Events(t.log) == (before + [es[0]] + NextStream(streams)) + Events(u.log) &&
      subs + t.submitted == (subs + [Submission(es[0].threadId, es[0].runId, outs)]) + u.submitted &&
      t.remaining == u.remaining
  {
    RelayStep(batch, es, streams, cycle);
    var u := Relay(batch, es[1..], Rest(streams), cycle + 1);
    SeqAssoc(before, [es[0]] + NextStream(streams), Events(u.log));
    SeqAssoc(subs, [Submission(es[0].threadId, es[0].runId, outs)], u.submitted);
  }

  lemma SeqAssoc<T>(a: seq<T>, b: seq<T>, c: seq<T>)
    ensures a + (b + c) == (a + b) + c
  {
  }

  /**
   * A conversation of two turns: the second `chat` reuses the thread id the
   * first returned, so exactly one thread is created and both turns post to it.
   */
  method ContinueConversation(service: OpenAIService, first: string, second: string)
    returns (r1: Result<ChatResult, ChatError>, r2: Result<ChatResult, ChatError>)
    modifies service.remote
    ensures service.remote.threadCount == old(service.remote.threadCount) + 1
    ensures r1.Ok? ==> r1.value.threadId == ThreadIdFor(old(service.remote.threadCount))
    ensures r1.Ok? && r2.Ok? ==> r2.value.threadId == r1.value.threadId
    ensures r1.Ok? ==>
      service.remote.log == old(service.remote.log) +
        [Message(r1.value.threadId, User, first), Message(r1.value.threadId, User, second)]
  {
    r1 := service.Chat(first, None);
    if r1.Ok? {
      r2 := service.Chat(second, Some(r1.value.threadId));
    } else {
      r2 := r1;
    }
  }
}
