# Streaming chat relay of the DeepSeek chat extension, in Dafny

The extension opens a webview with a chat page and relays prompts to a local
language model. Two small state machines do the work:

- the **controller** (`Controller`, `controller.dfy`): the extension host's
  `onDidReceiveMessage` handler. For a `chat` request it posts `chatStart`
  with an empty assistant message. It then reads the backend's fragment
  stream, appending each fragment to `response` and posting `chatStream`
  with the text so far. It ends with `chatComplete` holding the whole text,
  or with `chatError` carrying `"Error: "` and the backend's message if the
  call or the stream throws;
- the **webview script** (`Webview`, `webview.dfy`): the page's transcript of
  messages, the `isProcessing` flag and the send button's `disabled`
  property, the submit handler and the `message` listener that reduces the
  controller's events into the transcript.

`protocol.dfy` (`Protocol`) holds the message vocabulary between them.
`session.dfy` (`Session`) connects the two sides. It feeds the controller's
events to the page after an accepted submit and proves what the page looks
like afterwards.

The backend is a parameter, `Backend`: either the call rejects with a
message, or it returns a stream that yields a finite sequence of fragments
and then ends or throws. A failure after k fragments is a stream of k
fragments that throws. `postMessage` in either direction is modelled as
appending to an ordered list: the controller returns the `seq<Event>` it
posts, and the page keeps the requests it posts in `outbox`. Delivery is
first-in first-out and each handler runs to completion.

On three points a reader might expect otherwise, the model follows what the
code does:

- fragments may be empty strings, so a `chatStream` payload extends the
  previous one by the next fragment, which may be empty (not necessarily
  by a non-empty suffix);
- the controller does not reject a `chat` request while another is in
  flight; only the page's `isProcessing` flag keeps requests apart;
- there is no theme toggle, markdown rendering, cancellation or timeout.

## Model

| member | source | states |
|---|---|---|
| `Controller.Relay` | src/extension.ts:19-57 | a request whose command is not `chat` posts nothing; a `chat` request posts one event per fragment plus two: first `chatStart` with an empty assistant message, then only `chatStream` events, then one terminal event |
| `Controller.HandleMessage` | src/extension.ts:19-57 | the handler, with its accumulating loop, posts exactly the events `Relay` describes, in order |
| `Controller.StreamEvents` | src/extension.ts:37-44 | the stream loop posts one `chatStream` per fragment received and nothing else |
| `Controller.Terminal` | src/extension.ts:46-56 | the last event is `chatError` exactly when the call or the stream fails, and `chatComplete` otherwise |
| `Controller.JoinedPrefix` | src/extension.ts:38 | the accumulated response only grows: after i fragments it is a prefix of the response after j >= i fragments |
| `Controller.StreamPayload` | src/extension.ts:37-44 | the k-th `chatStream` carries the first k fragments concatenated in order |
| `Controller.StreamPayloadsGrow` | src/extension.ts:37-44 | every `chatStream` payload is a prefix of each later one, and the next payload is the previous one plus the next fragment |
| `Controller.RelayCounts` | src/extension.ts:24-56 | a `chat` request posts exactly one `chatStart`, one `chatStream` per fragment, and exactly one of `chatComplete` (clean end) and `chatError` (failure) |
| `Controller.CleanEnd` | src/extension.ts:37-50 | on a clean end the last event is `chatComplete` with all fragments concatenated, which equals the last `chatStream` payload when there was a fragment |
| `Controller.FailureEnd` | src/extension.ts:30-56 | on a failure at call time or mid-stream the last event is `chatError` with `"Error: "` and the message, and no `chatComplete` is posted |
| `Webview.TrimStart` | src/extension.ts:265 | removes exactly the leading whitespace: the result is a suffix, the removed characters are whitespace, the result does not start with whitespace |
| `Webview.TrimEnd` | src/extension.ts:265 | removes exactly the trailing whitespace: the result is a prefix, the removed characters are whitespace, the result does not end with whitespace |
| `Webview.TrimSpec` | src/extension.ts:265 | about `Webview.Trim`, the model of `promptInput.value.trim()`: the trimmed prompt sits inside the prompt with only whitespace around it, has no whitespace at either end, and is empty exactly when the prompt is blank |
| `Webview.UpdateLast` | src/extension.ts:327-341 | keeps the transcript's length and every entry but the last; the last entry, if any, keeps its role and gets the new content and markers |
| `Webview.Reduce` | src/extension.ts:282-310 | `chatStart` appends one loading assistant entry; every other event keeps the length, leaves all but the last entry alone, gives the last its payload with the loading marker cleared and the error marker set exactly for `chatError`; only `chatComplete` and `chatError` clear `isProcessing` |
| `Webview.ReduceAllAppend` | src/extension.ts:282-310 | handling two batches of events one after the other is handling their concatenation |
| `Webview.StreamSuperseded` | src/extension.ts:291-308 | a `chatStream` followed by an overwriting event leaves the page as the overwriting event alone does |
| `Webview.ChatPage.constructor` | src/extension.ts:245-252 | the page starts with an empty transcript, nothing in flight and the send button enabled |
| `Webview.ChatPage.AddMessage` | src/extension.ts:312-325 | appends exactly one entry with the given role, content and loading marker and no error marker |
| `Webview.ChatPage.UpdateLastMessage` | src/extension.ts:327-341 | rewrites the transcript as `UpdateLast` does and changes nothing else |
| `Webview.ChatPage.UpdateSendButton` | src/extension.ts:343-346 | the send button is disabled exactly when `isProcessing` holds |
| `Webview.ChatPage.Submit` | src/extension.ts:261-279 | while a request is in flight or when the trimmed prompt is empty nothing changes; otherwise one user entry with the trimmed prompt is appended, the prompt is cleared, `isProcessing` is set with the button disabled, and one `chat` request with the trimmed prompt is posted |
| `Webview.ChatPage.OnMessage` | src/extension.ts:282-310 | the page's transcript and flag change as `Reduce` says, the button follows the flag, and the prompt and posted requests are untouched |
| `Session.StreamsFillLastEntry` | src/extension.ts:291-294 | while fragments arrive the open assistant entry shows the text so far, no longer loading, and nothing before it changes |
| `Session.ExchangeOutcome` | src/extension.ts:19-57 | after an accepted submit, the events posted for that prompt leave the user entry followed by one assistant entry holding the whole answer (or the error text, marked as an error), with `isProcessing` cleared |
| `Session.StreamsOverwritten` | src/extension.ts:291-308 | any number of `chatStream` events followed by an overwriting event leave the page as that event alone does |
| `Session.RelayStreamsRedundant` | src/extension.ts:37-44 | the page's state after an exchange is the same as if only `chatStart` and the terminal event had been posted |
| `Session.Deliver` | src/extension.ts:282-310 | the page's message listener, called once per event in order, reaches the state `ReduceAll` describes |
| `Session.Exchange` | src/extension.ts:261-279 | one round trip: a rejected submit changes nothing; an accepted one ends with the user entry, the finished assistant entry, the prompt cleared, the button enabled again and one `chat` request posted |

## Left out

- VS Code plumbing: command registration, creating the panel, setting its
  HTML, subscriptions and `deactivate` (src/extension.ts:4-17, 59-63, 352).
- The Ollama client: the model name and the network call. The backend's
  behaviour is the `Backend` parameter.
- Asynchronous scheduling: `await` and `for await` are modelled as running
  each handler to completion; interleavings of two handlers are not
  modelled.
- A thrown value that is not an `Error`: `.message` is then `undefined` or
  whatever the object carries, and for a thrown `null` or `undefined`
  reading it throws inside the `catch` (src/extension.ts:51-56), so no
  `chatError` is posted and the page stays processing with the send button
  disabled. The model's failure message is always a string and every
  failure posts `chatError`, as `RelayCounts` states.
- Strings are sequences of Unicode scalar values, while the source's are
  UTF-16: a fragment that ends inside a surrogate pair cannot be
  represented. `Trim` is unaffected, since every character it removes lies
  in the Basic Multilingual Plane outside the surrogate range.
- All HTML and CSS, and DOM rendering: `innerHTML` markup, avatar letters,
  the spinner element, the error `<span>`, unescaped HTML in the content,
  scroll position, the textarea's auto-resize and the button's label text.
  An entry records its role, content and the loading and error markers.
- Events the page receives with other `command` values: the controller never
  posts one, and the listener's `switch` ignores them.
- The characters `String.prototype.trim` removes are fixed to ECMAScript's
  whitespace and line terminators as of Unicode 15; later Unicode versions'
  changes are not modelled.
