# MAX messenger client and forwarder: a Dafny model

This project models two Python files.

`max_api_fixed.py` is the client (`MaxAPI`) for the MAX messenger's WebSocket API. The model covers its
request/response bookkeeping:

- one sequence counter that numbers every outbound command;
- the table of pending requests, keyed by seq;
- the reader that answers those requests (`_process_message`);
- the blocking `send_command` and the coroutine `send_command_async`;
- subscribing to and unsubscribing from chats;
- the handshake, and the authentication with the post-processing of its response, which stores the user
  and builds the chats map;
- `close`;
- the reconnect loop: its backoff schedule, the handshake and re-authentication of every connected attempt,
  and its replay of subscriptions.

`main.py` is the forwarder bot that relays a chat's messages to Telegram. The model covers its pure and
mixed decision logic:

- reading the `USER_NAMES` setting;
- the Telegram header for a message;
- the filters in `on_max_event`;
- the image chosen for a photo or a sticker;
- the contacts cache behind `get_user_name`.

`MaxAPI` is a class whose fields the methods update, `MaxClient.MaxApi`. The socket, the event loop and the
threads are replaced by atomic steps:

- Each `with self.response_lock:` block is one step.
- A wait is split in two: the step that registers the request and the step that wakes up. Between them,
  the reader handles a sequence of inbound messages. That sequence is a parameter (`during`).
- The commands handed to the socket are recorded, in order, in the field `issued`.
- The reader's effect is the pure function `Dispatch.Deliver` over a `Dispatch.Table`. `ProcessMessage` is
  proved to perform exactly that function. The lemmas about `Dispatch.DeliverAll` then describe every
  interleaving of one waiter with the reader.

Python semantics the code depends on are modelled explicitly:

- `True == 1`, for the `cmd`, `seq` and sender comparisons and for dict keys;
- truthiness and `dict.get` with defaults;
- `int(str)`, with white space, sign and `_` digit groups;
- `str(int)`;
- `strip`, `split(sep)`, `split(sep, 1)`, `lower` and `in` on strings;
- `max(key=...)`, which keeps the first maximum;
- `images[-1]`.

Behaviours of the code that the model makes explicit:

- **The reader never removes a blocking request.** Only the waiter pops it. A duplicate response that
  arrives before the waiter wakes replaces the stored one: the caller gets the LAST answer
  (`Dispatch.DeliverAllBlocking`). A deferred request is removed by its FIRST answer, and later duplicates
  are dropped (`Dispatch.DeliverAllDeferred`).
- **The `RuntimeError` at max_api_fixed.py:396-397 cannot be raised.** An event is set only by the reader,
  and only while the entry is in the table. Only the waiter removes a blocking entry.
  `MaxApi.CompleteBlocking` proves that a failure is always `TimedOut`.
- **A failed socket write leaks its entry.** When `send_command_async`'s `write_message` raises, the
  exception is not the `TimeoutError` that line 312 catches, so the entry stays in `pending_responses`
  (`MaxApi.CompleteDeferred`, case `WriteFailed`).
- **The backoff restarts in every episode.** The delay is a local variable of `_reconnect_async`. The
  `reconnect_delay = 2` at line 227 is never read: the `break` at line 228 ends the loop and the call,
  and the next episode binds a fresh delay of 2 at line 182.
- **A failed attempt may have changed the session.** A handshake or authentication that raises ends the
  attempt, but the seqs it consumed, the commands it issued and, after a readable profile, the stored user
  stay as they are for the next attempt (`MaxClient.EstablishSends`).
- **`get_contact_details` returns the whole response object.** That object is a dict, and `details[0]`
  on it raises `KeyError`. `get_user_name` catches the error and falls back to `User {id}` without caching
  it (`Forwarder.WholeResponseGivesNoName`). `main.py` imports `MaxAPI` from the `MaxBridge` package,
  which is not part of this model; the lemma holds for any lookup that returns a dict.

## Model

| member | source | states |
|---|---|---|
| MaxClient.MaxApi.constructor | max_api_fixed.py:49-72 | The counter starts at 0 with no pending request, no subscription, no chats and no user. The user agent is the fixed device description. `is_running` is false and `_should_reconnect` is true. |
| MaxClient.MaxApi.SeqsDistinct | max_api_fixed.py:69 | Every command issued so far has a seq strictly greater than the one before, so seqs are pairwise distinct and never reused. |
| MaxClient.MaxApi.Issue | max_api_fixed.py:376-377 | The command takes the current counter value as its seq. The counter advances by one. The envelope `{ver: 11, cmd: 0, seq, opcode, payload}` is appended to the issued commands. |
| MaxClient.MaxApi.OnConnected | max_api_fixed.py:200-201 | A successful `websocket_connect` sets `is_running`. |
| MaxClient.MaxApi.BeginBlocking | max_api_fixed.py:372-387 | When not running: `ConnectionError`, and no seq is consumed. Otherwise: one fresh seq, not pending before; one `Blocking(None)` entry under it with its opcode; the envelope is issued. |
| MaxClient.MaxApi.CompleteBlocking | max_api_fixed.py:389-399 | The entry is popped whatever happened. The result is a response exactly when the event was set, and then it is the stored response. Otherwise it is `TimedOut`. The "lost" error never occurs. |
| MaxClient.MaxApi.ProcessMessage | max_api_fixed.py:235-266 | Handling one inbound message changes the table exactly as `Dispatch.Deliver` does. |
| MaxClient.MaxApi.ProcessAll | max_api_fixed.py:150-159 | The reader handling messages in arrival order performs `Dispatch.DeliverAll`. |
| MaxClient.MaxApi.SendCommand | max_api_fixed.py:372-399 | Fire-and-forget takes a seq, registers nothing and returns `None`. A blocking call issues one envelope and leaves the table `BlockingTable` describes. It returns the last answer to its seq among the messages handled meanwhile, or `TimedOut` when there was none. Not running: `ConnectionError`, and nothing changes. |
| MaxClient.BlockingEffect | max_api_fixed.py:380-399 | After a blocking command its entry is gone, and its event is set exactly when some message answered it. |
| MaxClient.MaxApi.BeginDeferred | max_api_fixed.py:294-303 | When not running: `ConnectionError`, and no seq is consumed. Otherwise: one fresh seq and one `Deferred` entry under it, and the envelope is issued. |
| MaxClient.MaxApi.CompleteDeferred | max_api_fixed.py:305-315 | A failed write propagates and leaves the entry in place. A resolved future yields its frame. Otherwise the timeout pops the entry and reports `TimedOut`. |
| MaxClient.MaxApi.AwaitDeferred | max_api_fixed.py:305-315 | The wait of a registered deferred command returns `AsyncResult` and leaves the table `AsyncTable` describes. |
| MaxClient.AsyncEffect | max_api_fixed.py:301-315 | Once answered, a deferred command's entry is gone and its future holds the first answer. Unanswered, its entry is popped after the timeout but leaks after a failed write, with its opcode. The caller gets a frame exactly when the write went through and the future was resolved, and that frame is the future's. |
| MaxClient.MaxApi.SendCommandAsync | max_api_fixed.py:293-315 | Not running: `ConnectionError`, and nothing changes. Running: one envelope with the next seq is issued, the counter advances, the result is `AsyncResult` and the table is `AsyncTable`. |
| MaxClient.MaxApi.SubscribeToChat | max_api_fixed.py:441-450 | A non-integer chat id raises before anything is sent. Not running: `ConnectionError`, nothing issued, the table unchanged. Running: one subscribe command with the next seq; the table is `BlockingTable`; the result is the last answer to that seq, or `TimedOut`. The subscription set gains or loses exactly `str(chat_id)`, and only when the command returned a response. On any failure the set is unchanged. |
| MaxClient.MaxApi.Heartbeat | max_api_fixed.py:354-363 | When running, a heartbeat `{interactive: false}` takes the next seq like any other command. When not running, nothing is sent. |
| MaxClient.MaxApi.Close | max_api_fixed.py:268-283 | Once it has run: reconnecting is forbidden, `is_running` is false and the loop is gone. Only when already stopped with no loop does it return early and leave the flags as they were. |
| MaxClient.AuthApplied | max_api_fixed.py:338-352 | An error payload or an unreadable profile changes nothing. A readable profile stores its contact as the user. The call succeeds exactly when the chat items are read and every one is accepted; then the chats are `Auth.ChatsOf` of them, and on failure the chats stay as they were. |
| MaxClient.MaxApi.ApplyAuthResponse | max_api_fixed.py:338-352 | The outcome, the user and the chats afterwards are those of `AuthApplied`. |
| MaxClient.Reauth | max_api_fixed.py:325-352 | Without a token nothing is sent. With one, exactly one authenticate command with the documented payload is issued under the next seq. A failure leaves the chats as they were. |
| MaxClient.MaxApi.Authenticate | max_api_fixed.py:324-352 | Without a token: `Ok` and nothing changes. With a token but not connected: `ConnectionError` and nothing changes. Connected: the outcome and the whole session afterwards (table, counter, issued commands, user, chats) are those of `Reauth`. |
| MaxClient.Establish | max_api_fixed.py:200-208 | A connected attempt never counts as unreachable. The handshake comes first, and its failure ends the attempt. Otherwise the re-authentication decides between established and rejected. |
| MaxClient.EstablishSends | max_api_fixed.py:205-208 | The attempt fails in the handshake exactly when the handshake call failed. It issues the handshake `{userAgent, deviceId: "asd"}` and then, with a token and a successful handshake, the authenticate command on the following seq. The counter moves by the commands issued. Only an established attempt replaces the chats. |
| MaxClient.MaxApi.TryConnect | max_api_fixed.py:200-208 | After `websocket_connect`: `is_running` is set, and the outcome and the session afterwards are those of `Establish`. |
| MaxClient.Step | max_api_fixed.py:188-208 | An attempt is unreachable exactly when `websocket_connect` raised. |
| MaxClient.AttemptsSnoc | max_api_fixed.py:200-201 | Some attempt has connected after one more exactly when it connects or an earlier one did. |
| MaxClient.TraceSnoc | max_api_fixed.py:185-233 | The trace of an episode grows by the outcome and session of one more attempt. |
| MaxClient.MaxApi.AttemptNext | max_api_fixed.py:188-208 | One attempt extends the trace. An attempt that got past `websocket_connect` leaves `is_running` set. |
| MaxClient.MaxApi.RetryNext | max_api_fixed.py:185-233 | One iteration sleeps the current delay, extends the trace, and moves the delay on to the next attempt's. |
| MaxClient.MaxApi.RetryAttempts | max_api_fixed.py:172-233 | The delay slept before attempt k is `DelayBeforeAttempt(k)`. The loop runs only while both flags allow it. Each attempt's outcome and session follow `Step` from the one before. It stops at the first established attempt and otherwise tries every attempt. `is_running` ends true exactly when some attempt made got connected. |
| MaxClient.ReplayOutcome | max_api_fixed.py:215-223 | A member that `int()` rejects reports that, and sends nothing. Otherwise the subscribe's failure or frame is that member's outcome. |
| MaxClient.MaxApi.ReplayOne | max_api_fixed.py:216-223 | The member's id is `int(chat_id)`. The outcome is `ReplayOutcome`. A subscribe is issued exactly when the id parsed and the client is connected, and the table is `ReplayStepTable`. |
| MaxClient.ReplayResultsRejected | max_api_fixed.py:215-223 | A member's outcome says it was rejected exactly when its `int()` failed. No failure stops the loop. |
| MaxClient.ReplaySnoc | max_api_fixed.py:215-223 | One more member's outcome and table effect follow the earlier members', its subscribe taking the next seq. |
| MaxClient.MaxApi.ReplaySubscriptions | max_api_fixed.py:214-223 | Every member of the snapshot is attempted, and the outcomes are `ReplayResults`. Each parse failure is caught on its own. The commands issued are one subscribe per parsable member, in snapshot order. The table is `ReplayTable`. The subscription set is unchanged. |
| MaxClient.MaxApi.Reconnect | max_api_fixed.py:169-233 | The same delays, trace and stopping rule as the retry loop. When an attempt is established, the user and chats are those it left, and the replay adds exactly the subscribe commands of the snapshot and its table effect. Without one the session is the one the last attempt left. |
| MaxClient.ReplayIdsAllParse | max_api_fixed.py:215-219 | When every subscribed chat is an integer string, replay sends one id per member, in order, each being `int(member)`. |
| MaxClient.ReplayIdsMembers | max_api_fixed.py:215-219 | An id is replayed exactly when some member of the snapshot parses to it. |
| Protocol.NamedOpcodes | max_api_fixed.py:25-37 | Every opcode the client looks up by name is in `OPCODE_MAP` with the value it sends, and the four are pairwise different. |
| Dispatch.Deliver | max_api_fixed.py:239-263 | Only a `cmd == 1` frame touches the requests, and only the entry at its seq. Only `cmd == 0` frames reach the event handler. Blocking entries never leave the table, and a set event always has its response. |
| Dispatch.DeliverToBlocking | max_api_fixed.py:250-252 | A response for a blocking entry stores the frame and sets the event. The entry stays. |
| Dispatch.DeliverToDeferred | max_api_fixed.py:253-256 | A response for a deferred entry removes it and resolves its future with the frame. |
| Dispatch.DeliverUnknownSeq | max_api_fixed.py:241-245 | A response whose seq is missing, unknown or already popped changes nothing. |
| Dispatch.DeliverNonResponse | max_api_fixed.py:257-266 | Push events, API errors, other `cmd`s and malformed messages never change the requests. A push is appended to the events. |
| Dispatch.DeliverAll | max_api_fixed.py:150-159 | Reading a run of messages adds no request, keeps the blocking ones and their opcodes, and keeps events consistent with responses. |
| Dispatch.DeliverAllBlocking | max_api_fixed.py:250-252 | While a caller blocks, its entry stays. Its event is set exactly when some message answered it, and the stored response is the last answer. |
| Dispatch.DeliverAllDeferred | max_api_fixed.py:253-256 | While a coroutine waits, the first answer removes its entry and resolves its future. Without an answer the entry stays unchanged. |
| Dispatch.DeliverAllOrphan | max_api_fixed.py:243-256 | Once a seq has left the table, no later message brings it back or changes its result. |
| Dispatch.DeliverAllUnanswered | max_api_fixed.py:241-256 | An entry that no message answers keeps its place and its value. |
| Backoff.FirstDelay | max_api_fixed.py:182 | Every episode sleeps 2 seconds before its first attempt. |
| Backoff.NextDelayStep | max_api_fixed.py:233 | `min(delay * 2, 60)` moves the closed-form schedule on by one attempt. |
| Backoff.Schedule | max_api_fixed.py:182-233 | The delays are 2, 4, 8, 16, 32 and then 60 for every later attempt, always between 2 and 60. |
| Backoff.DelayMonotone | max_api_fixed.py:233 | A later attempt never waits less than an earlier one. |
| Auth.ProfileOf | max_api_fixed.py:338-343 | A truthy `error` is rejected with its value, and a non-dict payload raises. Otherwise the result is accepted exactly when the name path can be read, and then it is the payload's fields and `profile.contact`, which has `names[0].name`. |
| Auth.ContactNameOf | max_api_fixed.py:342 | A name is found only when every subscript of `payload['profile']['contact']['names'][0]['name']` succeeds, and it is the value at the end of that path. |
| Auth.ChatItems | max_api_fixed.py:346-347 | No `chats` key gives no items, and a list gives its items. |
| Auth.ChatEntry | max_api_fixed.py:348-351 | A chat item is accepted exactly when it is a dict with an `id` that has a `str()`. Its key is `str(id)`, and its value is the item without `id`. |
| Auth.ChatsOf | max_api_fixed.py:345-352 | The chats dict after the loop over the items, or the first failing item's error; its properties are `ChatsOfFailed`, `ChatsOfOk`, `ChatsOfKeys` and `ChatsOfLastWins`. |
| Auth.BuildChats | max_api_fixed.py:345-352 | The loop yields exactly `ChatsOf(items)`. |
| Auth.ChatsOfFailed | max_api_fixed.py:347-351 | The first failing item decides the outcome, whatever follows it. |
| Auth.ChatsOfOk | max_api_fixed.py:345-352 | The map is built exactly when every item is accepted. |
| Auth.ChatsOfKeys | max_api_fixed.py:345-352 | The keys are exactly the items' `str(id)`, and no value keeps an `id` field. |
| Auth.ChatsOfLastWins | max_api_fixed.py:351 | A key maps to the last item that carried it. |
| PyJson.PyIntHasPyStr | max_api_fixed.py:442-447 | A chat id that `int()` accepts also has the `str()` that the subscription set stores. |
| PyJson.PyStrPyIntRoundTrip | max_api_fixed.py:447 | A stored `str(n)` parses back to `n` when replayed (line 219). |
| PyJson.PyInt | max_api_fixed.py:219 | `int(x)`: an integer is itself, a bool is 0 or 1, a string is `ParseInt`; anything else raises. Its partner is `PyStrPyIntRoundTrip`. |
| PyJson.PyStr | max_api_fixed.py:348 | `str(x)` of a scalar: `None`, `True`/`False`, the decimal digits of an integer, or the string itself. Its partner is `PyIntHasPyStr`. |
| PyJson.Get | main.py:187-195 | `get` succeeds exactly on dicts and yields the default for a missing key. |
| PyJson.Subscript | max_api_fixed.py:342 | `x[key]` succeeds exactly when `x` is a dict holding `key`. |
| PyJson.First | main.py:77 | `x[0]` succeeds exactly on a non-empty list or string. |
| PyJson.KeyOfIsPyEq | main.py:71 | Two ids select the same cache entry exactly when Python calls them equal. |
| PyText.LStripSpec | main.py:38 | `lstrip()` keeps a suffix and cuts only white space before it. |
| PyText.RStripSpec | main.py:38 | `rstrip()` keeps a prefix and cuts only white space after it. |
| PyText.StripIsTrimmedSlice | main.py:38 | `strip()` is a slice with only white space cut on either side and none left at its ends. |
| PyText.StripTrimmed | main.py:38 | A string without white space at its ends is its own `strip()`. |
| PyText.Split | main.py:34 | `split(",")` gives at least one piece. No piece holds the separator, and joining the pieces gives the input back. |
| PyText.SplitFirst | main.py:36 | `split(":", 1)` cuts at the first separator. The head holds none, and head + `:` + tail is the input. |
| PyText.SplitFirstOf | main.py:36 | The cut is exactly where the first separator was put. |
| PyText.SplitJoin | main.py:34 | `split` undoes `join` when no piece holds the separator. |
| PyText.ContainsIff | main.py:214 | The substring test holds exactly when the needle occurs at some position. |
| PyText.Lower | main.py:24 | `lower()` maps each character on its own, in order. |
| PyText.NatToString | main.py:96 | `str(day)` is decimal digits with no leading zero. |
| PyText.NatToStringRoundTrip | main.py:96 | The digits of `str(n)` have the value `n`. |
| PyText.ParseIntStrips | main.py:38 | `int(s)` reads the sign and digit groups of `s.strip()`. |
| PyText.ParseInt | main.py:38 | `int(s)` of a base-10 string, `None` for the `ValueError`. Its properties are `ParseIntStrips` and `IntToStringRoundTrip`. |
| PyText.IntToStringRoundTrip | max_api_fixed.py:219 | `int(str(n)) == n` for every integer. |
| PyText.Pad2 | main.py:94 | `%H` and `%M` write two digits whose value is the number. |
| UserNames.PairEntry | main.py:35-38 | A pair is kept only when it holds a `:`. The id is read from the stripped text before the first `:`, and the name is the stripped rest. |
| UserNames.ParseUserNames | main.py:31-40 | The loop over `split(",")` yields the last-wins map of the kept pairs. An empty setting gives an empty map. |
| UserNames.CollectKeys | main.py:38 | The ids in the map are exactly the ids of the kept pairs. |
| UserNames.CollectLastWins | main.py:38 | Each id is named by the last pair carrying it. |
| UserNames.PairEntryRoundTrip | main.py:36-38 | `str(id) + ":" + name` reads back as `(id, name)` for a stripped name, even one holding `:`. |
| UserNames.SettingRoundTrip | main.py:33-40 | A setting written from any entries, none included, reads back as those entries, the last one for an id winning, when no name holds `,`. |
| Format.MonthNumber | main.py:90-93 | A month found for a name is in range, and its name is that name. |
| Format.MonthNumberOfName | main.py:90-93 | The twelve genitive month names are distinct, so each names its own month. |
| Format.DateLineRoundTrip | main.py:92-96 | `"{day} {month}, {HH:MM}"` gives back the day, month, hour and minute it was built from. |
| Format.DateLineHasNoNewline | main.py:96 | The date line is a single line. |
| Format.ReadMessageOf | main.py:97 | The header's fixed markup separates name, date and text. |
| Format.FormatMessageRoundTrip | main.py:87-97 | The header `<b>name</b>\n{date}\n\n<blockquote>text</blockquote>` gives back the sender name (one line), the date line and the text, whatever the text holds. |
| Format.FormatMessage | main.py:87-97 | `format_message_for_telegram`; its partner is the reader `ReadMessage`, and `FormatMessageRoundTrip` connects them. |
| Attachments.Area | main.py:142 | An area exists only for a dict, with missing dimensions counted as 0. |
| Attachments.LargestIndex | main.py:142 | The index `max(sizes, key=area)` picks lies within the list, and its area exists. |
| Attachments.LargestIndexIsFirstMax | main.py:142 | `max(sizes, key=area)` succeeds exactly when every area exists. The chosen area is maximal, and every earlier size is strictly smaller, so it is the first maximum. |
| Attachments.PhotoTakesLargest | main.py:136-145 | A photo sends the URL of the size `max` picks, when that URL is non-empty. |
| Attachments.LargerSizeWins | main.py:142 | A size with a strictly larger area than the best so far becomes the choice. |
| Attachments.TieKeepsFirst | main.py:142 | A size with an equal or smaller area leaves the choice unchanged. |
| Attachments.StickerTakesLast | main.py:168-175 | A sticker sends the last image's URL, whatever precedes it. |
| Attachments.PhotoPick | main.py:136-145 | A photo leads to a send only with a non-empty URL. |
| Attachments.StickerPick | main.py:168-175 | A sticker leads to a send only with a non-empty URL. |
| Attachments.ImagePick | main.py:133-175 | Whatever the attachment's type, an image is sent only with a non-empty URL. |
| Forwarder.FallbackName | main.py:84 | The fallback `User {id}` is never empty. |
| Forwarder.ContactName | main.py:74-78 | A name comes only from a returned non-empty list whose first element is a dict, and it has no white space at either end. |
| Forwarder.NameLookup | main.py:69-84 | A cache hit returns the cached name, with no remote call. On a miss the remote lookup runs: a name `ContactName` finds is stored and returned (an empty one as `User {id}`); otherwise `User {id}` is returned and nothing is stored. No other entry changes. An unhashable id raises. |
| Forwarder.FoundNameIsCached | main.py:71-79 | After a successful lookup, asking again is answered from the cache with the same name. |
| Forwarder.FallbackIsNotCached | main.py:81-84 | A failed lookup leaves the cache unchanged, so the next call asks again. |
| Forwarder.WholeResponseGivesNoName | main.py:75-77 | A lookup that returns a dict never yields a name. |
| Forwarder.ReadEvent | main.py:181-195 | Only opcode 128 is a new message. Its chat id is `abs(payload.chatId)`, with defaults for missing fields. |
| Forwarder.CheckSender | main.py:205-211 | A message is dropped for its sender exactly when the target id is set, parses as an int and differs from the sender. An unparsable target disables the filter. |
| Forwarder.NamePasses | main.py:214 | The name filter passes exactly when no target name is set or the target occurs somewhere in the lower-cased sender name. |
| Forwarder.Timestamp | main.py:218 | A falsy time gives the clock's time. A truthy number gives its conversion, or a failure when that raises. Any other truthy value fails. |
| Forwarder.Decide | main.py:196-224 | A message is forwarded exactly when it is a new message in the configured chat, its sender is named, it passes the id filter and the case-insensitive name filter, its time converts, and its text is a string or empty. The header is present exactly for a non-empty text and is `format_message_for_telegram` of it. The other-chat drop happens exactly when the chat differs. A time that does not convert drops the message as a failure. |
| Forwarder.Forwarder.constructor | main.py:22-48 | The cache starts as a copy of `USER_NAMES` (line 48), keyed by int. The target id is stripped, and the target name is stripped and lower-cased. |
| Forwarder.Forwarder.GetUserName | main.py:69-84 | The name, the cache afterwards and whether a remote call ran are those of `NameLookup`. |
| Forwarder.Forwarder.OnMaxEvent | main.py:178-224 | The sender is looked up, and possibly cached, only for a new message in the configured chat, before the id and name filters. The decision is `Decide` of the event, with the clock's time and the conversion as parameters. |

## Left out

- Sockets, the tornado event loop, coroutines, `PeriodicCallback`, threads, locks, `run_in_executor` and
  thread joins are not modelled. Each locked block is one atomic step. A wait is a register step and a
  completion step, with the inbound messages handled in between as a parameter. Whether a wait times out
  is decided by those messages.
- JSON encoding and decoding, and logging, are not modelled. Frames and envelopes are datatypes. JSON
  floats are not represented.
- The initial connect loop `_connect_and_run` (max_api_fixed.py:113-147) and the listener loop's choice to
  reconnect (lines 150-167) are not modelled. `ProcessAll` models only the reader's processing of
  messages.
- Inside `_reconnect_async`, stopping and restarting the heartbeat timer (lines 173-174, 211-212), closing
  the old socket (lines 176-180), the HTTP headers of the connect request and the registration of the
  listener callback (line 204) are not modelled. The reader's work during each wait is the `during`
  parameter. Heartbeats the restarted timer sends while the subscriptions are replayed are not
  interleaved with the replay, so the model gives the replayed subscribes consecutive seqs where the
  running program may put heartbeat seqs between them.
- `MaxClient.MaxApi.Reconnect`: the deferred subscribe commands of the replay are given a `Wait` each. A
  close that runs concurrently with the reconnect loop is not modelled; the flags are read once per
  iteration.
- `_finalize_authentication` (max_api_fixed.py:401-418) is a thread handoff only, and is not modelled.
- Signal handling (max_api_fixed.py:77-81, 92-94) and `_default_on_event` logging are not modelled.
- The heartbeat's exception branches (max_api_fixed.py:364-370) are not modelled. Scheduling the write
  cannot raise in the model.
- `send_message`, `get_history`, `mark_as_read`, `get_contact_details` and `get_contact_by_phone` are not
  modelled separately. Each is `SendCommand` with a payload built from the wall clock or from caller
  values.
- `get_chat_by_id` and `get_all_chats` are plain reads of `chats`, and are not modelled.
- `get_video` and `get_file` are HTTP downloads, and are not modelled.
- `PyJson.PyStr`: `str()` of a list or dict id is not modelled. A chat whose id is a list or object yields
  `IdNotModelled` instead of a key.
- `Forwarder.ContactName`: `str()` of a non-string name part is limited to the scalar cases.
- `Forwarder.Decide`: a non-empty list as message text yields `TextNotModelled`, because its `str()` is
  not modelled.
- `PyText.ParseInt`: Unicode digits, which Python's `int()` also accepts, are not modelled.
- `PyText.LowerChar`: only ASCII and the basic Cyrillic block are lower-cased, one character to one.
  Characters whose lower case in Python is longer (`İ`, U+0130, becomes two) are left as they are.
- `Attachments.Area`: `width * height` where one side is a string (string repetition in Python) is
  treated as an error, as is any other non-number.
- The conversion `datetime.fromtimestamp(msg_time / 1000)` (main.py:218) depends on the time zone, and
  `datetime.now()` on the clock. Both are parameters of `Forwarder.Timestamp`; which of them is used, and
  the failure of a non-numeric time, are modelled.
- The attachment loop's document, video and audio branches, the Telegram sends, the `requests.get` of
  documents and the headers of attachments are not modelled. So are forwarded messages (main.py:233-240)
  and the extra `get_user_name` calls they make.
- `validate_config`, dotenv loading, `run_max_listener` and `main` are configuration and I/O loops, and
  are not modelled.
- The `MaxBridge` package that `main.py` imports is not part of this model.
