/** The chat page's session controller: the message history, the input box,
    the in-flight flag, the cosmetic loading phase with its countdown, and
    the upstream session id. Each event (submit, countdown tick, request
    settled, clear) is specified by a pure step function on `ChatState`, and
    `ChatController` performs the same event in place on its fields. */
module ChatSession {
  import opened JsValues
  import ChatRoute

  datatype Role = User | Assistant

  /** A chat message; its id and timestamp are not modelled. */
  datatype Message = Message(content: string, role: Role)

  /** The loading phase; `Idle` stands for the source's `null`. */
  datatype Phase = Idle | Searching | Generating

  /** Seconds the `searching` phase counts down from. */
  const CountdownSeed := 40

  datatype ChatState = ChatState(
    messages: seq<Message>,
    input: string,
    isLoading: bool,
    phase: Phase,
    sessionId: Option<string>,
    countdown: int)

  /** The body the page posts to `/api/chat`. */
  datatype ChatRequest = ChatRequest(message: string, sessionId: Option<string>)

  /** How the exchange settled, as the page sees it: a reply with
      `success` set, a reply without it (its `error` text, when present,
      goes to a notification), or a failed fetch or unreadable reply. */
  datatype Outcome =
    | Success(text: string, sessionId: Option<string>)
    | Failure(error: Option<string>)
    | NetworkError

  datatype SubmitResult = SubmitResult(state: ChatState, request: Option<ChatRequest>)

  /** The state the page starts in. */
  function Initial(): (s: ChatState)
    ensures Consistent(s) && s.messages == [] && s.sessionId == None && !s.isLoading
    ensures s.input == "" && s.phase == Idle
  {
    ChatState([], "", false, Idle, None, CountdownSeed)
  }

  /** What holds in every reachable state: loading exactly while a phase is
      shown; idle at the seed; searching with at least one second left;
      generating at zero. */
  ghost predicate Consistent(s: ChatState) {
    && 0 <= s.countdown <= CountdownSeed
    && (s.isLoading <==> s.phase != Idle)
    && (s.phase == Idle ==> s.countdown == CountdownSeed)
    && (s.phase == Searching ==> s.countdown >= 1)
    && (s.phase == Generating ==> s.countdown == 0)
  }

  /** Whether the send button does anything: the trimmed input is non-empty
      and no request is in flight. */
  predicate CanSubmit(s: ChatState) {
    Trim(s.input) != "" && !s.isLoading
  }

  /** Submitting: a no-op unless `CanSubmit`; otherwise exactly one user
      message with the trimmed input is appended after the unchanged history,
      the input is cleared, loading starts in `Searching` at the seed, and the
      request carries the trimmed text and the session id held at submit. */
  function SubmitStep(s: ChatState): (r: SubmitResult)
    ensures r.request.Some? <==> CanSubmit(s)
    ensures !CanSubmit(s) ==> r.state == s
    ensures CanSubmit(s) ==>
              && r.state.messages == s.messages + [Message(Trim(s.input), User)]
              && r.state.input == ""
              && r.state.isLoading
              && r.state.phase == Searching
              && r.state.countdown == CountdownSeed
              && r.state.sessionId == s.sessionId
              && r.request == Some(ChatRequest(Trim(s.input), s.sessionId))
    ensures r.request.Some? ==> r.request.value.message != ""
    ensures Consistent(s) ==> Consistent(r.state)
  {
    if !CanSubmit(s) then
      SubmitResult(s, None)
    else
      var content := Trim(s.input);
      var next := s.(messages := s.messages + [Message(content, User)], input := "",
                     isLoading := true, phase := Searching, countdown := CountdownSeed);
      SubmitResult(next, Some(ChatRequest(content, s.sessionId)))
  }

  /** The countdown updater: never negative; above zero it goes down by
      exactly one; it reaches zero exactly from one or below. */
  function NextCountdown(prev: int): (next: int)
    ensures next >= 0
    ensures prev >= 1 ==> next == prev - 1
    ensures next == 0 <==> prev <= 1
  {
    if prev <= 1 then 0 else prev - 1
  }

  /** One tick of the one-second countdown. Nothing changes unless the phase
      is `Searching` with time left; then the countdown drops by one and the
      phase becomes `Generating` exactly when it reaches zero. Only the
      countdown and the phase ever change. */
  function TickStep(s: ChatState): (t: ChatState)
    ensures !(s.phase == Searching && s.countdown > 0) ==> t == s
    ensures s.phase == Searching && s.countdown > 0 ==>
              && t.countdown == s.countdown - 1
              && (t.phase == Generating <==> t.countdown == 0)
              && (t.phase == Searching <==> t.countdown > 0)
    ensures t == s.(countdown := t.countdown, phase := t.phase)
    ensures Consistent(s) ==> Consistent(t)
  {
    if s.phase == Searching && s.countdown > 0 then
      s.(countdown := NextCountdown(s.countdown),
         phase := if s.countdown <= 1 then Generating else Searching)
    else
      s
  }

  /** The request and the 40-second floor have both settled. A success
      appends exactly one assistant message with the returned text and
      stores the returned session id; a failure leaves history and session
      id alone. Whatever the outcome, loading ends, the phase is `Idle` and
      the countdown is back at the seed; the input is untouched. */
  function FinishStep(s: ChatState, outcome: Outcome): (t: ChatState)
    ensures outcome.Success? ==>
              t.messages == s.messages + [Message(outcome.text, Assistant)] &&
              t.sessionId == outcome.sessionId
    ensures !outcome.Success? ==> t.messages == s.messages && t.sessionId == s.sessionId
    ensures !t.isLoading && t.phase == Idle && t.countdown == CountdownSeed
    ensures t.input == s.input
    ensures Consistent(t)
  {
    var settled := s.(isLoading := false, phase := Idle, countdown := CountdownSeed);
    match outcome
    case Success(text, sessionId) =>
      settled.(messages := s.messages + [Message(text, Assistant)], sessionId := sessionId)
    case _ => settled
  }

  /** Clearing empties the history and forgets the session id; the input,
      the in-flight flag, the phase and the countdown stay as they were. */
  function ClearStep(s: ChatState): (t: ChatState)
    ensures t.messages == [] && t.sessionId == None
    ensures t.input == s.input && t.isLoading == s.isLoading
    ensures t.phase == s.phase && t.countdown == s.countdown
    ensures Consistent(s) ==> Consistent(t)
  {
    s.(messages := [], sessionId := None)
  }

  /** How the page reads a reply of the route: `success` set means a
      success with its message and session id; otherwise a failure whose
      notification shows the reply's error text. */
  function ReplyOutcome(reply: ChatRoute.Reply): (o: Outcome)
    ensures o.Success? <==> reply.SuccessReply?
    ensures reply.SuccessReply? ==> o == Success(reply.message, reply.sessionId)
    ensures reply.ErrorReply? ==> o.Failure? && (reply.error != "" ==> o.error == Some(reply.error))
  {
    match reply
    case SuccessReply(message, sessionId) => Success(message, sessionId)
    case ErrorReply(_, error) => Failure(if error == "" then None else Some(error))
  }

  /** `k` countdown ticks in a row. */
  function Ticks(s: ChatState, k: nat): ChatState
    decreases k
  {
    if k == 0 then s else Ticks(TickStep(s), k - 1)
  }

  /** From a consistent `Searching` state, `k` ticks lower the countdown by
      `k` while time is left; from then on the phase is `Generating` at zero
      and further ticks change nothing. */
  lemma {:induction false} TicksWhileSearching(s: ChatState, k: nat)
    requires Consistent(s) && s.phase == Searching
    ensures k < s.countdown ==> Ticks(s, k) == s.(countdown := s.countdown - k)
    ensures k >= s.countdown ==> Ticks(s, k) == s.(countdown := 0, phase := Generating)
    decreases k
  {
    if k > 0 {
      var t := TickStep(s);
      if s.countdown == 1 {
        GeneratingIsStable(t, k - 1);
      } else {
        TicksWhileSearching(t, k - 1);
      }
    }
  }

  /** Once the phase is `Generating`, ticks change nothing. */
  lemma {:induction false} GeneratingIsStable(s: ChatState, k: nat)
    requires s.phase == Generating
    ensures Ticks(s, k) == s
    decreases k
  {
    if k > 0 {
      GeneratingIsStable(TickStep(s), k - 1);
    }
  }

  /** After a submit the page shows `Searching` for 39 ticks, with one
      second left after the 39th, and `Generating` at zero from the 40th tick
      on. */
  lemma SearchingLastsFortyTicks(s: ChatState, k: nat)
    requires CanSubmit(s)
    ensures var r := SubmitStep(s).state;
      && Ticks(r, 39).phase == Searching && Ticks(r, 39).countdown == 1
      && (k >= CountdownSeed ==> Ticks(r, k).phase == Generating && Ticks(r, k).countdown == 0)
  {
    var r := SubmitStep(s).state;
    TicksWhileSearching(r, 39);
    TicksWhileSearching(r, k);
  }

  /** Every sequence of events from the initial state keeps `Consistent`;
      in particular the countdown is never negative. */
  lemma {:induction false} EventsPreserveConsistent(s: ChatState, events: seq<Event>)
    requires Consistent(s)
    ensures Consistent(Run(s, events))
    ensures 0 <= Run(s, events).countdown <= CountdownSeed
    decreases |events|
  {
    if events != [] {
      EventsPreserveConsistent(Apply(s, events[0]), events[1..]);
    }
  }

  /** The events the page reacts to. */
  datatype Event = Submit | Tick | Finish(outcome: Outcome) | Clear | Type(text: string)

  function Apply(s: ChatState, e: Event): ChatState {
    match e
    case Submit => SubmitStep(s).state
    case Tick => TickStep(s)
    case Finish(outcome) => FinishStep(s, outcome)
    case Clear => ClearStep(s)
    case Type(text) => s.(input := text)
  }

  function Run(s: ChatState, events: seq<Event>): ChatState
    decreases |events|
  {
    if events == [] then s else Run(Apply(s, events[0]), events[1..])
  }

  /** Clearing twice is clearing once. */
  lemma ClearIdempotent(s: ChatState)
    ensures ClearStep(ClearStep(s)) == ClearStep(s)
  {
  }

  /** A whole exchange through the `POST` route: the user message stays in
      the history whatever happens; an assistant message follows it and the
      session id moves on only when the route replies with success, and
      then it is the upstream session id when non-empty, else the one sent. */
  lemma ExchangeThroughRoute(s: ChatState, upstream: ChatRoute.Upstream)
    requires CanSubmit(s)
    ensures var sub := SubmitStep(s);
      var req := sub.request.value;
      var reply := ChatRoute.Post(ChatRoute.JsonBody(Some(req.message), req.sessionId), upstream).reply;
      var t := FinishStep(sub.state, ReplyOutcome(reply));
      && (reply.SuccessReply? ==>
            t.messages == s.messages + [Message(Trim(s.input), User), Message(reply.message, Assistant)])
      && (reply.ErrorReply? ==>
            t.messages == s.messages + [Message(Trim(s.input), User)] && t.sessionId == s.sessionId)
      && (reply.SuccessReply? ==>
            t.sessionId == Or(upstream.output.value.sessionId, s.sessionId))
      && !t.isLoading && t.phase == Idle && t.input == ""
  {
    var sub := SubmitStep(s);
    assert Truthy(Some(sub.request.value.message));
  }

  /** The page's component state, updated in place by its event handlers. */
  class ChatController {
    var messages: seq<Message>
    var input: string
    var isLoading: bool
    var phase: Phase
    var sessionId: Option<string>
    var countdown: int

    function State(): ChatState
      reads this
    {
      ChatState(messages, input, isLoading, phase, sessionId, countdown)
    }

    ghost predicate Valid()
      reads this
    {
      Consistent(State())
    }

    constructor ()
      ensures Valid() && State() == Initial()
    {
      messages, input, isLoading := [], "", false;
      phase, sessionId, countdown := Idle, None, CountdownSeed;
    }

    /** Typing into the input box, or picking a suggestion. */
    method SetInput(text: string)
      requires Valid()
      modifies this
      ensures Valid() && State() == old(State()).(input := text)
    {
      input := text;
    }

    /** The send handler: returns the request it posts, if any. */
    method Submit() returns (request: Option<ChatRequest>)
      requires Valid()
      modifies this
      ensures Valid() && SubmitResult(State(), request) == SubmitStep(old(State()))
    {
      var content := Trim(input);
      if content == "" || isLoading {
        return None;
      }
      messages := messages + [Message(content, User)];
      input := "";
      isLoading := true;
      phase := Searching;
      countdown := CountdownSeed;
      request := Some(ChatRequest(content, sessionId));
    }

    /** The one-second interval callback, live while `Searching` with time left. */
    method Tick()
      requires Valid()
      modifies this
      ensures Valid() && State() == TickStep(old(State()))
    {
      if phase == Searching && countdown > 0 {
        if countdown <= 1 {
          phase := Generating;
        }
        countdown := NextCountdown(countdown);
      }
    }

    /** Settling the exchange once the reply and the 40-second floor are both in. */
    method Finish(outcome: Outcome)
      requires Valid()
      modifies this
      ensures Valid() && State() == FinishStep(old(State()), outcome)
    {
      if outcome.Success? {
        messages := messages + [Message(outcome.text, Assistant)];
        sessionId := outcome.sessionId;
      }
      isLoading := false;
      phase := Idle;
      countdown := CountdownSeed;
    }

    /** The clear button. */
    method Clear()
      requires Valid()
      modifies this
      ensures Valid() && State() == ClearStep(old(State()))
    {
      messages := [];
      sessionId := None;
    }
  }
}
