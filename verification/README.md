# weather-assistant: a Dafny model of the assistant run loop

weather-assistant is a Next.js chat page backed by an OpenAI assistant. The
assistant can call two weather tools. The server side (`OpenAIService`) adds
the user's message to a thread, creating the thread if needed. It then runs
the assistant. Whenever the run stops with `requires_action`, the service
calls the requested tools and submits their outputs. It does this in two
modes:

- poll mode: `chat` → `handleRunStatus`, which loops until the run is no
  longer waiting for tools;
- stream mode: `chatStream` → `onStreamEvent`, which forwards every event to
  the page's emitter and answers each `thread.run.requires_action` event
  with a nested submit stream.

The page folds the streamed chunks into its message list.

The model is split into seven modules:

| file | module | models |
|---|---|---|
| `wrappers.dfy` | `Wrappers` | `Option` and `Result` |
| `json.dfy` | `JsonValue` | JSON values and JavaScript's property access on them: `undefined`, the TypeError on `null`/`undefined`, truthiness |
| `weather.dfy` | `Weather` | `getWeather`'s guard and request URL; `canGoOutside` |
| `registry.dfy` | `ToolRegistry` | the two-entry `functionCallingFns` table and what each tool answers |
| `orchestration.dfy` | `Orchestration` | `callTools`, plus the poll loop and the stream relay as functions over scripted remote replies |
| `service.dfy` | `Service` | the `OpenAIService` class and the remote assistant service, as classes whose methods change state; proved against the functions of `Orchestration` |
| `client.dfy` | `ChatClient` | the page's list updaters, `parseJson`, `saveToHistory` and the `processStream` loop |

Some calls leave the model and are replaced by parameters:

- The remote service is a class. It holds a thread counter, a message log,
  a script of poll replies, a script of event streams and the list of
  submitted tool outputs.
- The weather API request (`axios.get`) is a `Fetch` function.
- `JSON.parse` is a `Parser` function.
- `Number#toString` is a `formatNumber` function.
- The poll loop and the stream relay take the tool batch as a function
  parameter (`BatchFn`). The service passes `callTools` with its own tools
  and parser (`OpenAIService.Batch`). The loops only see a batch's result,
  as `handleRunStatus` and `onStreamEvent` only see what
  `handleRequiresAction` does with it.

Where the code and the documented design differ, the model follows the code:

- In poll mode, `submitToolOutputs` returns its promise without awaiting
  it. A rejected submission therefore escapes both `try` blocks and `chat`
  rethrows it (`RemoteFailure`).
- When `callTools` throws in poll mode, `handleRequiresAction` returns
  `undefined`. Reading `.status` of that value is a TypeError, so `chat`
  fails (`MissingRun`) instead of returning no messages.
- In stream mode, a `requires_action` event inside a nested submit stream
  is forwarded to the emitter and nothing more. Only the run's own stream
  is subscribed to through `onStreamEvent`.

## Model

| member | source | states |
|---|---|---|
| Weather.RequestUrl | src/lib/weather.ts:13-26 | the URL is the base URL, then `?q=` city `,` country `&appid=` key, then `&units=metric`; its length is the sum of the parts |
| Weather.GetWeather | src/lib/weather.ts:21-28 | an empty city or country fails with `InvalidAddress` and makes no request; otherwise the answer is the fetch of exactly `RequestUrl` |
| Weather.CanGoOutside | src/lib/weather.ts:35-40 | with at least one condition: true iff feels-like < 25, humidity < 80, first condition not `Rain` and wind < 5; with none: the TypeError only when the first two tests pass, else false (short-circuit) |
| Weather.HotMeansStayInside | src/lib/weather.ts:36 | a feels-like temperature of 25 or more answers false whatever the other fields are |
| Weather.OnlyFirstConditionCounts | src/lib/weather.ts:38 | conditions after the first never change the answer |
| Weather.CanGoOutsideMonotone | src/lib/weather.ts:35-40 | weather that is cooler, drier and calmer, with the same conditions, cannot turn a true into a false |
| Weather.InvalidAddressIssuesNoRequest | src/lib/weather.ts:22-24 | with an empty city or country the result is the same for every fetch function |
| Weather.GetWeatherUsesOnlyItsUrl | src/lib/weather.ts:26-27 | two fetch functions that agree on the request URL give the same result |
| ToolRegistry.Name | src/lib/openai-functions.ts:12-34 | each tool's registered name is `canGoOutside` or `getCurrentTemperature` |
| ToolRegistry.Lookup | src/lib/openai-functions.ts:12-34 | a name finds a tool iff it is one of the two registered names, and finds the tool of that name |
| ToolRegistry.RegistryHasExactlyTwoTools | src/lib/openai-functions.ts:4-7 | the registry has exactly two entries, one per tool |
| ToolRegistry.LookupNameRoundTrip | src/lib/openai-functions.ts:12-34 | looking up a tool's name gives back that tool, and a name that finds a tool is that tool's name |
| ToolRegistry.AddressOf | src/lib/openai-functions.ts:19 | destructuring `{ city, country }` fails iff the arguments are `null`; otherwise it reads the two fields |
| ToolRegistry.CanGoOutsideOutput | src/lib/openai-functions.ts:18-23 | the answer is `"true"` iff the weather is fetched and pleasant, `"false"` iff it is fetched and not; a failed fetch is an error, and so is an empty condition list when feels-like < 25 and humidity < 80 |
| ToolRegistry.CurrentTemperatureOutput | src/lib/openai-functions.ts:29-33 | the answer is the formatted feels-like temperature of the fetched weather; a failed fetch is an error |
| ToolRegistry.Invoke | src/lib/openai-functions.ts:18-33 | `null` arguments fail before any request; otherwise the named tool answers for the address read from the arguments |
| ToolRegistry.InvokeFetchesOnlyItsAddress | src/lib/openai-functions.ts:20 | two fetch functions that agree on the address's URL give the same answer |
| ToolRegistry.AddressJsonRoundTrip | src/lib/openai-functions.ts:19 | arguments built from an address read back as that address |
| ToolRegistry.TemperatureDependsOnlyOnFeelsLike | src/lib/openai-functions.ts:32 | weather responses with the same feels-like temperature give the same temperature answer |
| ToolRegistry.HotCityAnswersFalse | src/lib/openai-functions.ts:21-22 | when the fetched weather feels 25 or warmer, `canGoOutside` answers `"false"` |
| Orchestration.CallTool | src/lib/openai-service.ts:133-141 | malformed arguments fail the call; an unregistered name gives no output; a registered name fails iff its tool fails, and otherwise gives the tool's answer for the parsed arguments under that call id |
| Orchestration.RegisteredCalls | src/lib/openai-service.ts:137 | keeps a call iff its name is registered, never adds one, and never grows the list |
| Orchestration.CallTools | src/lib/openai-service.ts:132-145 | the batch succeeds iff every call does (all-or-nothing); it then has one output per registered call, in order, each exactly the output that call produced |
| Orchestration.MalformedArgumentsFailBatch | src/lib/openai-service.ts:134 | one unparsable argument string, registered name or not, fails the whole batch |
| Orchestration.AllRegisteredGiveOneOutputEach | src/lib/openai-service.ts:133-144 | when every name is registered, a successful batch has exactly one output per call, with matching ids |
| Orchestration.UnregisteredCallDropped | src/lib/openai-service.ts:144 | inserting a call with an unregistered name and well-formed arguments anywhere in a batch does not change the batch's outcome or outputs |
| Orchestration.NextReply | src/lib/openai-service.ts:179 | the first scripted reply while the script lasts; an exhausted script gives an expired run |
| Orchestration.PollDispatchStep | src/lib/openai-service.ts:155-183 | a dispatching run whose batch succeeds submits that batch to its run and thread; a rejected reply ends the poll with that rejection, a delivered one continues the poll on the delivered run |
| Orchestration.PollShape | src/lib/openai-service.ts:75-84 | every run seen before the last was dispatched; each dispatch submitted the batch of that run's calls to its run and thread; a successful poll ends on a run that does not dispatch, and lists the messages iff that run completed |
| Orchestration.PollMissingRun | src/lib/openai-service.ts:155-167 | the poll fails with the TypeError on `.status` iff the last run dispatched and its tool batch failed |
| Orchestration.PollConsumesReplies | src/lib/openai-service.ts:75-84 | the unused replies are a suffix of the script, and each consumed reply up to the last run seen is the next run seen, in order |
| Orchestration.PollConsumesOnePerRun | src/lib/openai-service.ts:155-183 | a poll consumes one reply per run seen after the first, plus one more exactly when a rejection ends it (that rejection); when it consumed one fewer, the script ran out and the last run seen is the expired run |
| Orchestration.RelayStep | src/lib/openai-service.ts:113-125 | each event is forwarded first; a triggering event then submits its batch to its run and thread and forwards the next nested stream whole; a quiet event submits nothing |
| Orchestration.Triggered | src/lib/openai-service.ts:119-120 | only a `thread.run.requires_action` event that carries tool calls can trigger a submission |
| Orchestration.RelayForwardsEveryEvent | src/lib/openai-service.ts:113-114 | every event of the run's own stream reaches the emitter, in arrival order |
| Orchestration.RelayForwardsNestedStream | src/lib/openai-service.ts:195-196 | every event of the k-th nested submit stream reaches the emitter, in its own order |
| Orchestration.NestedEventsNeverDispatch | src/lib/openai-service.ts:113-125 | any two scripts of nested streams, of any lengths, give the same submitted batches |
| Orchestration.SubmissionsAnswerRequiresAction | src/lib/openai-service.ts:113-125 | each submitted batch answers a `requires_action` event of the run's stream, for that event's run and thread; with no such event nothing is submitted and the emitter gets exactly the run's events |
| Service.ThreadIdFor | src/lib/openai-service.ts:92 | a created thread's id is non-empty and starts with `thread_` |
| Service.ResolvedThreadId | src/lib/openai-service.ts:91-93 | a non-empty given id is kept; a missing or empty one is replaced by a new thread's id; the result is never empty |
| Service.ThreadMessages | src/lib/openai-service.ts:78-79 | lists exactly the logged messages of that thread, and no message of another thread |
| Service.PostedMessageListed | src/lib/openai-service.ts:78-103 | a message posted to a thread is listed for it, after the earlier ones; other threads' lists are unchanged |
| Service.RemoteService.CreateThread | src/lib/openai-service.ts:92 | a new thread id; only the thread counter advances |
| Service.RemoteService.PostMessage | src/lib/openai-service.ts:103 | the message is appended to the log; nothing else changes |
| Service.RemoteService.CreateAndPoll | src/lib/openai-service.ts:58 | the next scripted run; only the run script advances |
| Service.RemoteService.SubmitToolOutputsAndPoll | src/lib/openai-service.ts:179 | records the submission and answers with the next scripted run |
| Service.RemoteService.Stream | src/lib/openai-service.ts:36 | the next scripted event stream; only the stream script advances |
| Service.RemoteService.SubmitToolOutputsStream | src/lib/openai-service.ts:195 | records the submission and answers with the next scripted stream |
| Service.Emitter.Emit | src/lib/openai-service.ts:114 | appends the event to the emitter's log |
| Service.FromReply | src/lib/openai-service.ts:155-167 | a delivered run resumes with that run, a rejected submission fails with its reason; a reply never reads as "no run" |
| Service.OpenAIService.GetThreadId | src/lib/openai-service.ts:91-93 | returns the resolved id; creates one thread iff no non-empty id was given |
| Service.OpenAIService.CreateMessage | src/lib/openai-service.ts:101-105 | posts the user's message to the resolved thread and returns that thread's id |
| Service.OpenAIService.SubmitToolOutputs | src/lib/openai-service.ts:177-183 | submits the outputs to the run and returns the next reply, a rejection included |
| Service.OpenAIService.SubmitToolOutputsStream | src/lib/openai-service.ts:193-202 | submits the outputs and forwards every event of the answering stream to the emitter, when there is one, in order |
| Service.OpenAIService.HandleRequiresAction | src/lib/openai-service.ts:155-167 | a failed batch submits nothing and returns no run; without an emitter it submits the batch and returns the next reply; with one it submits the batch, streams the answer and returns no run |
| Service.OpenAIService.HandleRunStatus | src/lib/openai-service.ts:75-84 | the loop ends with exactly the outcome, submissions and consumed replies of `Poll` on the run and the script |
| Service.OpenAIService.Chat | src/lib/openai-service.ts:52-67 | posts to the resolved thread, polls a new run, and returns the poll's messages with that thread id, or the poll's error |
| Service.OpenAIService.OnStreamEvent | src/lib/openai-service.ts:113-125 | forwards the event to the emitter first; submits a batch only for a triggering `requires_action` event, addressed to that event's run and thread |
| Service.OpenAIService.ChatStream | src/lib/openai-service.ts:29-44 | posts to the resolved thread, opens the run's stream, and leaves the emitter's log and the submissions exactly as `Relay` over that stream and the remaining scripted streams |
| Service.OpenAIService.RelayEvents | src/lib/openai-service.ts:37 | handling a stream event by event gives exactly `Relay`'s log and submissions |
| Service.ContinueConversation | src/lib/openai-service.ts:52-67 | a second `chat` with the thread id from the first creates no new thread and posts to the same thread |
| JsonValue.Field | src/pages/index.tsx:93 | reading a property throws iff the value is `null` or `undefined`; an object gives the key's value, or `undefined` where the key is missing |
| JsonValue.Element | src/pages/index.tsx:100 | indexing throws iff the value is `null` or `undefined`; an array gives the element, or `undefined` past its end |
| JsonValue.Truthy | src/pages/index.tsx:95 | `null` and `undefined` are falsy, every array and object is truthy, a string is truthy iff it is non-empty |
| ChatClient.ParseJson | src/pages/index.tsx:16-22 | the parsed value, or `{}` where parsing fails |
| ChatClient.AddMsgs | src/pages/index.tsx:67-70 | the old messages, then one message per `[content, role]` pair, in order, with no error flag |
| ChatClient.UpdateLastMessage | src/pages/index.tsx:72-76 | only the last message changes, its content extended by the fragment; role and error flag kept |
| ChatClient.SetLastMessage | src/pages/index.tsx:78-82 | only the last message changes, its content and error flag replaced |
| ChatClient.SubmitAppendsUserThenAssistant | src/pages/index.tsx:138-139 | a submit appends the user's message and then an empty assistant message |
| ChatClient.Saved | src/pages/index.tsx:32-36 | a thread already in the history adds nothing; a new thread is appended with its message |
| ChatClient.SavedKeepsThreadsDistinct | src/pages/index.tsx:32-36 | the history never lists a thread twice, lists the saved thread afterwards, and grows by at most one |
| ChatClient.SavedIdempotent | src/pages/index.tsx:32-36 | saving the same thread twice is saving it once |
| ChatClient.DecodeChunk | src/pages/index.tsx:93-111 | `null` is the destructuring TypeError; a missing or falsy `event` or `data` changes nothing; `thread.message.delta`, `thread.message.completed` and `thread.run.failed` with a string at the expected path give the delta text, the completed text and thread id, and the error message and thread id, and a TypeError or missing string ends the stream; any other event changes nothing |
| ChatClient.FirstTextValue | src/pages/index.tsx:100 | reading `content[0].text.value` of a nullish value, or of an object without `content`, is a TypeError |
| ChatClient.TextContentRoundTrip | src/pages/index.tsx:100 | the message content shape built around a value reads back as that value |
| ChatClient.DeltaChunkDecodes | src/pages/index.tsx:99-100 | a delta chunk as the server writes it decodes to its text |
| ChatClient.CompletedChunkDecodes | src/pages/index.tsx:103-105 | a completed chunk decodes to its text and its thread id |
| ChatClient.RunFailedChunkSetsError | src/pages/index.tsx:108-110 | a failed-run chunk puts its error message in the last message, flags it, keeps the other messages and takes the chunk's thread id |
| ChatClient.Apply | src/pages/index.tsx:99-111 | one chunk never changes the number of messages or any message but the last; no-op and broken chunks change nothing; a delta keeps the thread id; a completed or failed run sets it to the chunk's |
| ChatClient.Fold | src/pages/index.tsx:91-112 | the stream never changes the number of messages or any message but the last; it reports a throw iff one of the chunks throws |
| ChatClient.MalformedChunkChangesNothing | src/pages/index.tsx:93-97 | a chunk that is not valid JSON changes nothing |
| ChatClient.DeltasConcatenate | src/pages/index.tsx:99-100 | a run of deltas appends their concatenation to the last message; everything else is unchanged |
| ChatClient.StreamedReplyAfterSubmit | src/pages/index.tsx:99-104 | after a submit, the assistant's message is exactly the concatenated deltas, and a completed event overwrites it with its text and no error flag |
| ChatClient.RunFailedSetsError | src/pages/index.tsx:108-111 | a failed run puts the error message in the last message, flags it, and takes the event's thread id |
| ChatClient.ChatPage.constructor | src/pages/index.tsx:26-28 | no messages, no thread, the given history |
| ChatClient.ChatPage.SaveToHistory | src/pages/index.tsx:32-36 | the history becomes `Saved` of the old one; messages and thread unchanged |
| ChatClient.ChatPage.HandleSubmit | src/pages/index.tsx:138-139 | the messages gain the user's message and an empty assistant message |
| ChatClient.ChatPage.ProcessStream | src/pages/index.tsx:84-113 | without a body nothing changes; otherwise messages and thread are `Fold` of the chunks, and the loop stops at the first chunk whose handling throws |

## Left out

- Asynchrony is not modelled: the SDK's stream objects, the `EventEmitter` and how nested streams interleave with the run's own stream. A relay is modelled as handling each event to the end, its nested stream included, before the next event.
- `Promise.all` runs the tool calls concurrently. The model calls them in order; the outputs and the all-or-nothing outcome are the same.
- The network request of `getWeather` (axios) is the `Fetch` parameter. The API key from config is a plain parameter.
- `Number#toString` is the `formatNumber` parameter. `JSON.parse` is the `Parser` parameter.
- Failures of thread creation, message posting, message listing and opening a stream are not modelled; those calls always succeed. Only poll replies can be rejections.
- The remote service never writes assistant messages: a thread's list holds only the messages posted through `createMessage`. So the list `chat` returns, and the log in ContinueConversation, hold only user posts; the replies a real run adds to the thread are not modelled.
- The order in which the remote service lists a thread's messages is not modelled (the real list is newest first). `ThreadMessages` keeps log order.
- An exhausted poll script answers with an expired run. An exhausted stream script answers with an empty stream.
- ToolRegistry.AddressOf: a `city` or `country` that is present but not a string is read as `""`. The source would put its string form in the URL.
- ChatClient.DecodeChunk: a text, error message or thread id that is not a string is modelled as ending the stream (`Broken`), or as no thread id. The page would append a non-string delta text in its string form (`"undefined"`, say) and go on reading. It would store a non-string completed text, error message or thread id as it is.
- The API route handlers (src/pages/api/chat.ts, chat-stream.ts, history.ts), config.ts and the page's `fetchHistory`, `processResponse`, `postMsg` and `clearHistory` are not part of this model.
- The React state machinery is not modelled: hooks, batching of updates, the `useEffect` that saves history when the thread changes, `localStorage`, `loading` and `created_at`.
- ChatClient.ChatPage.ProcessStream: `TextDecoder`, the reader and the `done` flag are abstracted. The body is the list of decoded reads, the final empty read included.
- `console.error` logging is not modelled.
