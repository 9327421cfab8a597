# Chat agent front end and proxy route, modelled in Dafny

The system is a browser chat page backed by one proxy route. The page keeps
a message history, an input box, an in-flight flag, a cosmetic loading
indicator (a `searching` phase with a 40-second countdown, then
`generating`) and the session id that the hosted agent service returns. The
route `/api/chat` checks the caller's message and forwards it to the agent
service's completion endpoint. It then reduces whatever comes back to one
JSON reply: an error with a status, or `{message, sessionId, success: true}`.

The model has three modules:

- `JsValues` (`js_values.dfy`): the JavaScript semantics the code relies on.
  This is absent values, string truthiness (absent and `""` are falsy), the
  `||` operator, and `String.prototype.trim` over the full ECMAScript
  WhiteSpace and LineTerminator set.
- `ChatRoute` (`chat_route.dfy`): the `POST` and `GET` handlers as pure
  functions. Their inputs are the caller's message and session id and an
  abstract upstream outcome. Their result is the upstream request body they
  would send, if any, and their reply. The branch both handlers share after
  the upstream call is one function, `UpstreamReply`.
- `ChatSession` (`chat_session.dfy`): the page's controller. Each event is
  specified by a pure step function on a `ChatState` value: submit, a
  countdown tick, the settled exchange, clear, typing. The class
  `ChatController` holds the component's state as fields. Each of its
  methods updates those fields in place and is proved to produce exactly
  what the step function gives. The settled exchange is one event, `Finish`,
  that takes the outcome as a value.

Two behaviours of the code worth knowing:
- The route rejects only a falsy message. A message of spaces is forwarded
  upstream (`ChatRoute.WhitespaceMessageIsForwarded`). The page never sends
  one, because its own guard trims first.
- The `POST` handler does not forward the caller's session id upstream. Its
  upstream body holds only the prompt and an empty `biz_params` object. It
  uses the caller's session id only as the fallback in its reply. Only
  `GET` forwards a non-empty session id.

## Model

| member | source | states |
|---|---|---|
| `JsValues.Or` | app/api/chat/route.ts:47 | JavaScript's logical or gives its left operand when that is truthy and its right operand otherwise; the result is truthy exactly when one of the two is |
| `JsValues.Trim` | app/page.tsx:67-71 | `trim` removes whitespace only from the two ends: the input is whitespace, then the result, then whitespace; a non-empty result neither starts nor ends with whitespace; the result is empty exactly when the input is all whitespace |
| `JsValues.TrimIdempotent` | app/page.tsx:71 | trimming the stored content again leaves it unchanged |
| `ChatRoute.UpstreamReply` | app/api/chat/route.ts:33-56 | exactly one reply per upstream outcome. An exception gives 500 "internal error". A non-2xx status `s` gives status `s` with the fixed "unavailable" text when a reply can be built with `s` (200 to 599, not 304); any other non-2xx status makes building the reply throw, which gives 500 "internal error". A 2xx status with missing `output` or empty `text` gives 500 "malformed response". Success happens exactly on a 2xx with non-empty `output.text`; its message is that text, and its session id is the upstream one when non-empty, else the caller's. An error reply never carries a 2xx status, and every reply carries a status a reply can be built with |
| `ChatRoute.Post` | app/api/chat/route.ts:7-57 | a body that does not parse, or is JSON `null`, gives 500; a falsy message gives 400 and nothing is sent upstream; an upstream request is sent exactly when the message is truthy, and its body is `{input:{prompt, biz_params:{}}}`, with no session id; the reply is then the classified upstream outcome |
| `ChatRoute.Get` | app/api/chat/route.ts:60-114 | a falsy message gives 400 and nothing is sent upstream; otherwise the upstream body carries the prompt, carries `input.session_id` exactly when the session id is non-empty, always sets `parameters.incremental_output = true` and holds an empty `debug` object; the reply is the classified upstream outcome |
| `ChatRoute.PostAndGetReplyAlike` | app/api/chat/route.ts:69-78 | for the same parsed message, session id and upstream outcome, `POST` and `GET` give the same reply; with a non-empty session id, `GET` forwards it upstream and `POST` does not |
| `ChatRoute.WhitespaceMessageIsForwarded` | app/api/chat/route.ts:13-15 | any non-empty message made only of whitespace, with any session id and upstream outcome, is not rejected by either handler; it is sent upstream |
| `ChatRoute.HelloExchange` | app/api/chat/route.ts:44-49 | "hello" with no session id, answered with `{output:{text:"hi", session_id:"S1"}}`, gives `{message:"hi", sessionId:"S1", success:true}`; an upstream 503 is passed on as 503, and an upstream 304 ends as 500 "internal error" |
| `ChatSession.Initial` | app/page.tsx:28-35 | the page starts consistent, with an empty history, an empty input, no session id, nothing in flight and no loading phase |
| `ChatSession.SubmitStep` | app/page.tsx:66-92 | a request is made exactly when the trimmed input is non-empty and nothing is in flight. Otherwise nothing changes. On a submit, exactly one user message with the trimmed input is appended and earlier messages stay unchanged. The input becomes empty, loading starts in `searching` at 40, and the session id is kept. The request carries the trimmed (non-empty) text and the session id held at submit time. Consistency is preserved |
| `ChatSession.NextCountdown` | app/page.tsx:43-50 | the countdown updater never goes negative; from one or more it goes down by exactly one; it gives zero exactly from one or below |
| `ChatSession.TickStep` | app/page.tsx:39-56 | a tick changes nothing unless the phase is `searching` with time left. Then the countdown drops by exactly one, and the phase becomes `generating` exactly when the countdown reaches zero. Only the countdown and the phase change. Consistency is preserved |
| `ChatSession.FinishStep` | app/page.tsx:97-122 | a success outcome appends exactly one assistant message with the returned text and stores the returned session id. A failure or network error leaves the history and the session id unchanged. Every outcome ends with loading off, phase `none` and countdown 40, and the input unchanged; the result is always consistent |
| `ChatSession.ClearStep` | app/page.tsx:132-136 | clear empties the history and sets the session id to none; input, loading flag, phase and countdown are untouched; consistency is preserved |
| `ChatSession.ReplyOutcome` | app/page.tsx:100-114 | the page treats a reply as a success exactly when the route's reply is a success, with its message and session id; any error reply is a failure that carries its error text |
| `ChatSession.TicksWhileSearching` | app/page.tsx:41-50 | from a consistent `searching` state, `k` ticks lower the countdown by `k` while time is left; from then on the state is `generating` at zero |
| `ChatSession.GeneratingIsStable` | app/page.tsx:41 | once the phase is `generating`, any number of ticks changes nothing, so the countdown stays at zero |
| `ChatSession.SearchingLastsFortyTicks` | app/page.tsx:79-80 | after a submit the phase is still `searching` after 39 ticks with one second left, and it is `generating` at zero from the 40th tick on |
| `ChatSession.EventsPreserveConsistent` | app/page.tsx:28-135 | any sequence of events (submit, tick, finish, clear, typing) from a consistent state ends consistent; in particular the countdown stays between 0 and 40 |
| `ChatSession.ClearIdempotent` | app/page.tsx:132-135 | clearing twice gives the same state as clearing once |
| `ChatSession.ExchangeThroughRoute` | app/page.tsx:83-121 | a whole submit, `POST` and finish keeps the user message whatever the upstream outcome. An assistant message is appended only when the route replies with success. The session id changes only then, to the upstream id when non-empty, else the one sent. The exchange ends idle with an empty input |
| `ChatSession.ChatController.constructor` | app/page.tsx:28-35 | the component's initial state is `Initial()` |
| `ChatSession.ChatController.SetInput` | app/page.tsx:407 | typing replaces the input and nothing else |
| `ChatSession.ChatController.Submit` | app/page.tsx:66-92 | the send handler's new state and returned request are exactly `SubmitStep` of the old state |
| `ChatSession.ChatController.Tick` | app/page.tsx:42-51 | the interval callback's new state is exactly `TickStep` of the old state |
| `ChatSession.ChatController.Finish` | app/page.tsx:102-121 | settling the exchange gives exactly `FinishStep` of the old state and the outcome |
| `ChatSession.ChatController.Clear` | app/page.tsx:132-135 | the clear handler's new state is exactly `ClearStep` of the old state |

## Left out

- The real-time scheduling is not modelled: the 40-second `setTimeout` floor, the `Promise.all` join, and the `setInterval`/`clearInterval` lifecycle of the countdown. Ticks and the settled exchange are discrete events. Which phase is showing when the exchange settles is left open.
- `fetch`, `request.json()`, `response.json()`, `response.text()` and `JSON.stringify` are not modelled. Neither are the bearer header or the URL built from the environment. The upstream is an abstract outcome. An exception at any point of the upstream exchange is `Threw`: the call itself, reading the body, or a `null` JSON body.
- A `POST` body that is JSON `null` parses, but reading its fields throws; it is modelled as `UnparsableBody`, which gives the same 500 reply.
- JSON fields are modelled as optional strings. A `message`, `text` or `session_id` of another JSON type (a number, an object) is not modelled.
- Message ids and timestamps (`Date.now()`, `new Date()`), `console` logging and toast notifications are not modelled. A toast changes no state.
- All rendering is left out: JSX, animation, markdown and code highlighting, scrolling, the QR-code sidebar, the loading animation component and the page layout.
- The page reads a failure's error text only for its notification, so the text has no effect on state.
- The settling event does not require a request to be in flight. In the page it only runs after a guarded submit, but its reset does not depend on that.
