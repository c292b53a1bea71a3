/**
 * The chat page of src/pages/index.tsx: the message-list updaters, the
 * tolerant `parseJson`, the history list, and the fold of streamed chunks
 * over the message list and thread id performed by `processStream`.
 */
module ChatClient {
  import opened Wrappers
  import opened JsonValue

  /** A message as the page shows it; `error` is absent until a failure sets it. */
  datatype ChatMessage = ChatMessage(content: string, role: string, error: Option<bool>)

  datatype HistoryEntry = HistoryEntry(threadId: string, message: string)

  const EmptyObject: Json := JObj(map[])

  /** `parseJson`: the parsed value, or `{}` where `JSON.parse` throws; it never throws itself. */
  function ParseJson(parse: Parser, text: string): (j: Json)
    ensures parse(text).Some? ==> j == parse(text).value
    ensures parse(text).None? ==> j == EmptyObject
  {
    match parse(text)
    case Some(v) => v
    case None => EmptyObject
  }

  // ---------------------------------------------------------------- list updaters

  /** `addMsgs`: the new `[content, role]` pairs become messages after the existing ones. */
  function AddMsgs(list: seq<ChatMessage>, pairs: seq<(string, string)>): (r: seq<ChatMessage>)
    ensures |r| == |list| + |pairs|
    ensures r[..|list|] == list
    ensures forall i :: 0 <= i < |pairs| ==> r[|list| + i] == ChatMessage(pairs[i].0, pairs[i].1, None)
  {
    list + seq(|pairs|, i requires 0 <= i < |pairs| => ChatMessage(pairs[i].0, pairs[i].1, None))
  }

  /** `updateLastMessage`: only the last message changes, by the fragment appended to its content. */
  function UpdateLastMessage(list: seq<ChatMessage>, fragment: string): (r: seq<ChatMessage>)
    ensures |r| == |list|
    ensures forall i :: 0 <= i < |list| - 1 ==> r[i] == list[i]
    ensures |list| > 0 ==>
      r[|list| - 1].content == list[|list| - 1].content + fragment &&
      r[|list| - 1].role == list[|list| - 1].role && r[|list| - 1].error == list[|list| - 1].error
  {
    seq(|list|, i requires 0 <= i < |list| =>
      if i == |list| - 1 then list[i].(content := list[i].content + fragment) else list[i])
  }

  /** `setLastMessage`: only the last message changes; its content and error flag are replaced. */
  function SetLastMessage(list: seq<ChatMessage>, content: string, error: Option<bool>): (r: seq<ChatMessage>)
    ensures |r| == |list|
    ensures forall i :: 0 <= i < |list| - 1 ==> r[i] == list[i]
    ensures |list| > 0 ==> r[|list| - 1] == ChatMessage(content, list[|list| - 1].role, error)
  {
    seq(|list|, i requires 0 <= i < |list| =>
      if i == |list| - 1 then list[i].(content := content, error := error) else list[i])
  }

  /** What `handleSubmit` adds: the user's message, then an empty assistant message to stream into. */
  function SubmitPairs(current: string): seq<(string, string)> {
    [(current, "user"), ("", "assistant")]
  }

  lemma SubmitAppendsUserThenAssistant(list: seq<ChatMessage>, current: string)
    ensures var r := AddMsgs(list, SubmitPairs(current));
      r == list + [ChatMessage(current, "user", None), ChatMessage("", "assistant", None)]
  {
    var r := AddMsgs(list, SubmitPairs(current));
    assert r[..|list|] == list;
    assert r == r[..|list|] + [r[|list|], r[|list| + 1]];
  }

  // ---------------------------------------------------------------- history

  predicate HasThread(history: seq<HistoryEntry>, threadId: string) {
    exists i :: 0 <= i < |history| && history[i].threadId == threadId
  }

  /** `saveToHistory`: a thread already listed adds nothing; a new one is appended once. */
  function Saved(history: seq<HistoryEntry>, threadId: string, message: string): (r: seq<HistoryEntry>)
    ensures HasThread(history, threadId) ==> r == history
    ensures !HasThread(history, threadId) ==> r == history + [HistoryEntry(threadId, message)]
  {
    if HasThread(history, threadId) then history else history + [HistoryEntry(threadId, message)]
  }

  predicate DistinctThreads(history: seq<HistoryEntry>) {
    forall i, j :: 0 <= i < j < |history| ==> history[i].threadId != history[j].threadId
  }

  /** The history never lists a thread twice, and after saving it lists the thread. */
  lemma SavedKeepsThreadsDistinct(history: seq<HistoryEntry>, threadId: string, message: string)
    requires DistinctThreads(history)
    ensures DistinctThreads(Saved(history, threadId, message))
    ensures HasThread(Saved(history, threadId, message), threadId)
    ensures |history| <= |Saved(history, threadId, message)| <= |history| + 1
  {
    var r := Saved(history, threadId, message);
    if !HasThread(history, threadId) {
      assert r[|history|].threadId == threadId;
    }
  }

  /** Saving the same thread twice is saving it once. */
  lemma SavedIdempotent(history: seq<HistoryEntry>, threadId: string, m1: string, m2: string)
    ensures Saved(Saved(history, threadId, m1), threadId, m2) == Saved(history, threadId, m1)
  {
    var r := Saved(history, threadId, m1);
    if !HasThread(history, threadId) {
      assert r[|history|].threadId == threadId;
    }
  }

  // ---------------------------------------------------------------- stream chunks

  const DeltaEvent: string := "thread.message.delta"
  const CompletedEvent: string := "thread.message.completed"
  const RunFailedEvent: string := "thread.run.failed"

  /** What one chunk does to the page. */
  datatype ChunkView =
    | NoChange                                          // no `event` or `data`, or another kind
    | Delta(text: string)                               // append to the last message
    | Completed(text: string, threadId: Option<string>) // overwrite the last message, set the thread
    | RunFailed(message: string, threadId: Option<string>) // overwrite with the error, flag it
    | Broken                                            // a TypeError ends `processStream`

  /** `v.content[0].text.value`: reading `content` of a nullish value, or `[0]` of a missing list, throws. */
  function FirstTextValue(v: Js): (r: Result<Js, TypeError>)
    ensures Nullish(v) ==> r.Err?
    ensures v.Val? && v.json.JObj? && "content" !in v.json.fields ==> r.Err?
  {
    match Field(v, "content")
    case Err(e) => Err(e)
    case Ok(content) =>
      match Element(content, 0)
      case Err(e) => Err(e)
      case Ok(first) =>
        match Field(first, "text")
        case Err(e) => Err(e)
        case Ok(text) => Field(text, "value")
  }

  /** The message content shape `{ content: [{ text: { value } }] }` the assistant API sends. */
  function TextContent(value: Json): Json {
    JObj(map["content" := JArr([JObj(map["text" := JObj(map["value" := value])])])])
  }

  lemma TextContentRoundTrip(value: Json)
    ensures FirstTextValue(Val(TextContent(value))) == Ok(Val(value))
  {
  }

  /** The string a read yields, when it succeeds with one. */
  function TextAt(r: Result<Js, TypeError>): (t: Option<string>)
    ensures t.Some? <==> r.Ok? && r.value.Val? && r.value.json.JStr?
  {
    if r.Ok? then AsString(r.value) else None
  }

  /** `data.delta.content[0].text.value`, when it is a string. */
  function DeltaText(data: Js): Option<string> {
    match Field(data, "delta")
    case Err(_) => None
    case Ok(delta) => TextAt(FirstTextValue(delta))
  }

  /** `data.last_error.message`, when it is a string. */
  function ErrorMessage(data: Js): Option<string> {
    match Field(data, "last_error")
    case Err(_) => None
    case Ok(lastError) => TextAt(Field(lastError, "message"))
  }

  /** `data.thread_id`, when it is a string. */
  function ThreadIdOf(data: Js): Option<string> {
    TextAt(Field(data, "thread_id"))
  }

  /**
   * One chunk of `processStream`: destructure `{ event, data }`, skip unless
   * both are truthy, then act on exactly the three event kinds; a read that
   * throws or yields no string ends the loop.
   */
  function DecodeChunk(j: Json): (v: ChunkView)
    ensures j == JNull ==> v == Broken
    ensures j != JNull && !j.JObj? ==> v == NoChange
    ensures j.JObj? && ("event" !in j.fields || "data" !in j.fields) ==> v == NoChange
    ensures j.JObj? && "event" in j.fields && "data" in j.fields ==>
      var event, data := Val(j.fields["event"]), Val(j.fields["data"]);
      (!Truthy(event) || !Truthy(data) ==> v == NoChange) &&
      (Truthy(data) && event == Val(JStr(DeltaEvent)) ==>
        (DeltaText(data).Some? ==> v == Delta(DeltaText(data).value)) && (DeltaText(data).None? ==> v == Broken)) &&
      (Truthy(data) && event == Val(JStr(CompletedEvent)) ==>
        (TextAt(FirstTextValue(data)).Some? ==> v == Completed(TextAt(FirstTextValue(data)).value, ThreadIdOf(data))) &&
        (TextAt(FirstTextValue(data)).None? ==> v == Broken)) &&
      (Truthy(data) && event == Val(JStr(RunFailedEvent)) ==>
        (ErrorMessage(data).Some? ==> v == RunFailed(ErrorMessage(data).value, ThreadIdOf(data))) &&
        (ErrorMessage(data).None? ==> v == Broken)) &&
      ((Truthy(event) && Truthy(data) &&
        event !in {Val(JStr(DeltaEvent)), Val(JStr(CompletedEvent)), Val(JStr(RunFailedEvent))}) ==> v == NoChange)
  {
    match (Field(Val(j), "event"), Field(Val(j), "data"))
    case (Ok(event), Ok(data)) =>
      if !Truthy(event) || !Truthy(data) then NoChange
      else if event == Val(JStr(DeltaEvent)) then
        if DeltaText(data).Some? then Delta(DeltaText(data).value) else Broken
      else if event == Val(JStr(CompletedEvent)) then
        var text := TextAt(FirstTextValue(data));
        if text.Some? then Completed(text.value, ThreadIdOf(data)) else Broken
      else if event == Val(JStr(RunFailedEvent)) then
        if ErrorMessage(data).Some? then RunFailed(ErrorMessage(data).value, ThreadIdOf(data)) else Broken
      else NoChange
    case _ => Broken
  }

  /** A chunk as the server writes it: `{ event, data }`. */
  function Chunk(event: string, data: map<string, Json>): Json {
    JObj(map["event" := JStr(event), "data" := JObj(data)])
  }

  /** A delta chunk carrying text decodes to that text. */
  lemma DeltaChunkDecodes(text: string)
    ensures DecodeChunk(Chunk(DeltaEvent, map["delta" := TextContent(JStr(text))])) == Delta(text)
  {
    TextContentRoundTrip(JStr(text));
  }

  /** A completed chunk decodes to its text and the thread id it names. */
  lemma CompletedChunkDecodes(text: string, threadId: string)
    ensures var data := TextContent(JStr(text)).fields["thread_id" := JStr(threadId)];
      DecodeChunk(Chunk(CompletedEvent, data)) == Completed(text, Some(threadId))
  {
    var data := TextContent(JStr(text)).fields["thread_id" := JStr(threadId)];
    assert Field(Val(JObj(data)), "content") == Field(Val(TextContent(JStr(text))), "content");
    TextContentRoundTrip(JStr(text));
  }

  /**
   * A `thread.run.failed` chunk puts its error message into the last
   * message, flags it as an error and takes the thread id it names.
   */
  lemma RunFailedChunkSetsError(v: View, message: string, threadId: string)
    requires |v.messages| > 0
    ensures var data := map["last_error" := JObj(map["message" := JStr(message)]), "thread_id" := JStr(threadId)];
      var w := Apply(v, DecodeChunk(Chunk(RunFailedEvent, data)));
      var n := |v.messages|;
      w.messages[n - 1] == ChatMessage(message, v.messages[n - 1].role, Some(true)) &&
      w.messages[..n - 1] == v.messages[..n - 1] && w.threadId == Some(threadId)
  {
  }

  /** A chunk that is not valid JSON parses to `{}` and changes nothing. */
  lemma MalformedChunkChangesNothing(parse: Parser, text: string)
    requires parse(text).None?
    ensures DecodeChunk(ParseJson(parse, text)) == NoChange
  {
  }

  /** The page state the stream acts on. */
  datatype View = View(messages: seq<ChatMessage>, threadId: Option<string>)

  /** What one chunk does: only the last message and the thread id can change. */
  function Apply(v: View, c: ChunkView): (w: View)
    ensures |w.messages| == |v.messages|
    ensures forall i :: 0 <= i < |v.messages| - 1 ==> w.messages[i] == v.messages[i]
    ensures c == NoChange || c == Broken ==> w == v
    ensures c.Delta? ==> w.threadId == v.threadId
    ensures c.Completed? || c.RunFailed? ==> w.threadId == c.threadId
  {
    match c
    case Delta(text) => v.(messages := UpdateLastMessage(v.messages, text))
    case Completed(text, tid) => View(SetLastMessage(v.messages, text, None), tid)
    case RunFailed(message, tid) => View(SetLastMessage(v.messages, message, Some(true)), tid)
    case _ => v
  }

  /**
   * The chunks in order until a broken one; the flag tells whether one was
   * met. The stream never adds or removes a message and changes none but the last.
   */
  function Fold(v: View, views: seq<ChunkView>): (r: (View, bool))
    ensures |r.0.messages| == |v.messages|
    ensures forall i :: 0 <= i < |v.messages| - 1 ==> r.0.messages[i] == v.messages[i]
    ensures r.1 <==> Broken in views
    decreases |views|
  {
    if views == [] then (v, false)
    else if views[0] == Broken then (v, true)
    else
      var r := Fold(Apply(v, views[0]), views[1..]);
      assert Broken in views <==> Broken in views[1..];
      r
  }

  function Views(parse: Parser, chunks: seq<string>): (vs: seq<ChunkView>)
    ensures |vs| == |chunks|
    ensures forall i :: 0 <= i < |chunks| ==> vs[i] == DecodeChunk(ParseJson(parse, chunks[i]))
  {
    seq(|chunks|, i requires 0 <= i < |chunks| => DecodeChunk(ParseJson(parse, chunks[i])))
  }

  function Concat(texts: seq<string>): string {
    if texts == [] then "" else texts[0] + Concat(texts[1..])
  }

  function Deltas(texts: seq<string>): (vs: seq<ChunkView>)
    ensures |vs| == |texts|
    ensures forall i :: 0 <= i < |texts| ==> vs[i] == Delta(texts[i])
  {
    seq(|texts|, i requires 0 <= i < |texts| => Delta(texts[i]))
  }

  /**
   * A run of deltas appends their texts, in order, to the last message:
   * its content becomes the old content followed by the concatenation, and
   * every other message, the length and the thread id stay as they were.
   */
  lemma {:induction false} DeltasConcatenate(v: View, texts: seq<string>)
    requires |v.messages| > 0
    ensures var (w, broken) := Fold(v, Deltas(texts));
      var n := |v.messages|;
      !broken && w.threadId == v.threadId && |w.messages| == n &&
      w.messages[..n - 1] == v.messages[..n - 1] &&
      w.messages[n - 1] == v.messages[n - 1].(content := v.messages[n - 1].content + Concat(texts))
    decreases |texts|
  {
    var n := |v.messages|;
    if texts != [] {
      var v' := Apply(v, Delta(texts[0]));
      assert Deltas(texts)[1..] == Deltas(texts[1..]);
      assert v'.messages[..n - 1] == v.messages[..n - 1];
      DeltasConcatenate(v', texts[1..]);
      assert v.messages[n - 1].content + texts[0] + Concat(texts[1..]) ==
             v.messages[n - 1].content + (texts[0] + Concat(texts[1..]));
    } else {
      assert v.messages[n - 1].(content := v.messages[n - 1].content + "") == v.messages[n - 1];
    }
  }

  /**
   * After a submit, the streamed deltas make up the assistant's reply: its
   * content is exactly their concatenation. A following completed event then
   * overwrites it with the completed text and clears the error flag.
   */
  lemma StreamedReplyAfterSubmit(list: seq<ChatMessage>, current: string, threadId: Option<string>,
                                 texts: seq<string>, completed: string, tid: Option<string>)
    ensures var start := View(AddMsgs(list, SubmitPairs(current)), threadId);
      var (w, broken) := Fold(start, Deltas(texts));
      var n := |list| + 2;
      !broken && |w.messages| == n && w.messages[n - 1] == ChatMessage(Concat(texts), "assistant", None) &&
      w.messages[n - 2] == ChatMessage(current, "user", None) && w.messages[..n - 2] == list &&
      Apply(w, Completed(completed, tid)).messages[n - 1] == ChatMessage(completed, "assistant", None)
  {
    var start := View(AddMsgs(list, SubmitPairs(current)), threadId);
    SubmitAppendsUserThenAssistant(list, current);
    DeltasConcatenate(start, texts);
    var n := |list| + 2;
    var w := Fold(start, Deltas(texts)).0;
    assert w.messages[..n - 2] == w.messages[..n - 1][..n - 2];
  }

  /** A failed run replaces the last message by the error text and flags it; the thread id is taken from the event. */
  lemma RunFailedSetsError(v: View, message: string, tid: Option<string>)
    requires |v.messages| > 0
    ensures var w := Apply(v, RunFailed(message, tid));
      var n := |v.messages|;
      w.messages[n - 1].content == message && w.messages[n - 1].error == Some(true) &&
      w.messages[..n - 1] == v.messages[..n - 1] && w.threadId == tid
  {
  }

  /** The response handed to `processStream`: the decoded value of every read, the final one included, if it has a body. */
  datatype HttpResponse = HttpResponse(body: Option<seq<string>>)

  /** How `processStream` ends: `false` without a body, otherwise `undefined`, or a TypeError. */
  datatype StreamEnd = NoBody | Finished | Aborted

  /** The page's state: the message list, the current thread and the history list. */
  class ChatPage {
    var messages: seq<ChatMessage>
    var threadId: Option<string>
    var history: seq<HistoryEntry>

    constructor(history: seq<HistoryEntry>)
      ensures messages == [] && threadId == None && this.history == history
    {
      messages := [];
      threadId := None;
      this.history := history;
    }

    /** `saveToHistory`. */
    method SaveToHistory(threadId: string, message: string)
      modifies this
      ensures history == Saved(old(history), threadId, message)
      ensures messages == old(messages) && this.threadId == old(this.threadId)
    {
      if !HasThread(history, threadId) {
        history := history + [HistoryEntry(threadId, message)];
      }
    }

    /** The list update of `handleSubmit`. */
    method HandleSubmit(current: string)
      modifies this
      ensures messages == AddMsgs(old(messages), SubmitPairs(current))
      ensures threadId == old(threadId) && history == old(history)
    {
      messages := AddMsgs(messages, SubmitPairs(current));
    }

    /**
     * `processStream`: without a body it returns at once; otherwise each read
     * is decoded, parsed and applied in order, and a TypeError stops the loop.
     */
    method ProcessStream(res: HttpResponse, parse: Parser) returns (r: StreamEnd)
      modifies this
      ensures res.body.None? ==> r == NoBody && messages == old(messages) && threadId == old(threadId)
      ensures res.body.Some? ==>
        var (w, broken) := Fold(View(old(messages), old(threadId)), Views(parse, res.body.value));
        messages == w.messages && threadId == w.threadId && r == (if broken then Aborted else Finished)
      ensures history == old(history)
    {
      if res.body.None? {
        return NoBody;
      }
      var chunks := res.body.value;
      ghost var all := Views(parse, chunks);
      var i := 0;
      while i < |chunks|
        invariant 0 <= i <= |chunks|
        invariant history == old(history)
        invariant Fold(View(old(messages), old(threadId)), all) == Fold(View(messages, threadId), all[i..])
      {
        assert all[i..][0] == all[i] && all[i..][1..] == all[i + 1..];
        var view := DecodeChunk(ParseJson(parse, chunks[i]));
        match view {
          case NoChange =>
          case Broken =>
            return Aborted;
          case Delta(text) =>
            messages := UpdateLastMessage(messages, text);
          case Completed(text, tid) =>
            messages := SetLastMessage(messages, text, None);
            threadId := tid;
          case RunFailed(message, tid) =>
            messages := SetLastMessage(messages, message, Some(true));
            threadId := tid;
        }
        i := i + 1;
      }
      assert all[i..] == [];
      r := Finished;
    }
  }
}
