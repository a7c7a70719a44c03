/**
 * The debate engine of `src/debate_tools.py` as specification functions:
 * `call_llm`, one participant turn, one facilitator turn, one round, the
 * round loop, and the results of `run_debate` and `run_debate_streaming`.
 *
 * The model services are an oracle `(call, request) -> reply`, where `call`
 * counts the `call_llm` invocations made so far in the debate, so that two
 * identical requests may get different replies. The engine reaches them
 * only through `call_llm`, which it receives as a `CallLlmFn`; `CallLlmOf`
 * is the real `call_llm` over an oracle. `random.shuffle` is a shuffler
 * `(round, participants) -> order` supplied by the caller.
 *
 * `Played` is the debate once the cards have been accepted; `DebateSpec`
 * and `StreamingSpec` are the two entry points.
 */
module Debate {
  import opened Wrappers
  import opened Text
  import opened Cards
  import opened Frontend
  import opened Prompts
  import opened Providers

  datatype Endpoint = OpenAIEndpoint | GroqEndpoint

  /** What an adapter sends: a chat completion, or Gemini's single prompt string. */
  datatype Request =
    | ChatCompletion(endpoint: Endpoint, model: string, messages: seq<Message>)
    | GenerateContent(model: string, prompt: string)

  /**
   * The adapters `_call_openai`, `_call_gemini` and `_call_groq`, network and
   * credentials included: whatever text they return, error texts included.
   */
  type Oracle = (nat, Request) -> string

  /** `random.shuffle(participants)` in round `r`. */
  type Shuffler = (nat, seq<Card>) -> seq<Card>

  /** A shuffler that only ever reorders the list it is given. */
  ghost predicate IsShuffle(shuffle: Shuffler) {
    forall r: nat, cards: seq<Card> :: multiset(shuffle(r, cards)) == multiset(cards)
  }

  /** The request the adapter chosen for a backend sends for a message list. */
  function RequestFor(backend: Backend, messages: seq<Message>): Request {
    match backend
    case OpenAI(model) => ChatCompletion(OpenAIEndpoint, model, messages)
    case Gemini(model) => GenerateContent(model, GeminiPrompt(messages))
    case Groq(model) => ChatCompletion(GroqEndpoint, model, messages)
  }

  /** The dictionary `call_llm` returns. */
  datatype CallResult =
    | Answered(provider: string, role: string, personality: string, expertise: string, response: string)
    | Refused(message: string)

  /** The arguments of one `call_llm` call. */
  datatype CallArgs = CallArgs(provider: string, role: string, personality: string, expertise: string,
                               puzzle: string, history: string, prompt: string)

  /** `call_llm` as the engine sees it: the `n`-th call with its arguments and what it returns. */
  type CallLlmFn = (nat, CallArgs) -> CallResult

  function UnknownProviderMessage(provider: string): string {
    "Unknown provider: " + provider + ". Use 'openai', 'gemini', "
    + "'llama', 'qwen', or 'kimi'."
  }

  /** The reply of the adapter a provider name selects, or `None` for an unknown name. */
  function Dispatched(p: string, messages: seq<Message>, llm: Oracle, call: nat): Option<string> {
    match Route(p)
    case None => None
    case Some(backend) => Some(llm(call, RequestFor(backend, messages)))
  }

  /** `call_llm(provider, role, personality, expertise, puzzle, history, prompt)` as the `call`-th call. */
  function CallLlmSpec(provider: string, role: string, personality: string, expertise: string,
                       puzzle: string, history: string, prompt: string, llm: Oracle, call: nat): CallResult
  {
    var p := Canonical(provider);
    match Dispatched(p, TurnMessages(SystemPrompt(role, personality, expertise), puzzle, history, prompt), llm, call)
    case None => Refused(UnknownProviderMessage(p))
    case Some(response) => Answered(p, role, personality, expertise, response)
  }

  /**
   * `call_llm` refuses exactly the providers it does not know, before any
   * adapter is called; for a known one it succeeds whatever the adapter
   * answers (error texts included), and the adapter sees the turn's messages.
   */
  lemma CallLlmOutcome(provider: string, role: string, personality: string, expertise: string,
                       puzzle: string, history: string, prompt: string, llm: Oracle, call: nat)
    ensures var r := CallLlmSpec(provider, role, personality, expertise, puzzle, history, prompt, llm, call);
      && (r.Refused? <==> Canonical(provider) !in KnownProviders)
      && (r.Refused? ==> r.message == UnknownProviderMessage(Canonical(provider)))
      && (r.Answered? ==>
            var backend := Route(Canonical(provider)).value;
            var messages := TurnMessages(SystemPrompt(role, personality, expertise), puzzle, history, prompt);
            && r.provider == Canonical(provider)
            && r.role == role && r.personality == personality && r.expertise == expertise
            && r.response == llm(call, RequestFor(backend, messages))
            && (backend.Gemini? ==> r.response == llm(call, GenerateContent(backend.model, GeminiPrompt(messages)))))
  {
    var p := Canonical(provider);
    var messages := TurnMessages(SystemPrompt(role, personality, expertise), puzzle, history, prompt);
    RouteServesKnownProviders(p);
    match Route(p)
    case None =>
      assert Dispatched(p, messages, llm, call) == None;
    case Some(backend) =>
      assert Dispatched(p, messages, llm, call) == Some(llm(call, RequestFor(backend, messages)));
  }

  /** The `if/elif` chain of `call_llm` that picks and calls an adapter. */
  method Dispatch(p: string, messages: seq<Message>, llm: Oracle, call: nat) returns (response: Option<string>)
    ensures response == Dispatched(p, messages, llm, call)
  {
    if p == "openai" || p == "chatgpt" {
      response := Some(llm(call, ChatCompletion(OpenAIEndpoint, "gpt-4o", messages)));
    } else if p == "gemini" {
      var fullPrompt := FlattenForGemini(messages);
      response := Some(llm(call, GenerateContent("gemini-2.5-flash", fullPrompt)));
    } else if p == "llama" {
      response := Some(llm(call, ChatCompletion(GroqEndpoint, GroqModels["llama"], messages)));
    } else if p == "qwen" {
      response := Some(llm(call, ChatCompletion(GroqEndpoint, GroqModels["qwen"], messages)));
    } else if p == "kimi" {
      response := Some(llm(call, ChatCompletion(GroqEndpoint, GroqModels["kimi"], messages)));
    } else {
      response := None;
    }
  }

  /** The message list of `call_llm`, built by appending. */
  method BuildMessages(systemPrompt: string, puzzle: string, conversationHistory: string, prompt: string)
    returns (messages: seq<Message>)
    ensures messages == TurnMessages(systemPrompt, puzzle, conversationHistory, prompt)
  {
    messages := [Message(SystemRole, systemPrompt), Message(UserRole, "The puzzle is: " + puzzle)];
    if Strip(conversationHistory) != "" {
      messages := messages + [Message(UserRole, "Conversation so far:\n" + conversationHistory)];
    }
    messages := messages + [Message(UserRole, prompt)];
  }

  /**
   * `call_llm` step by step: canonicalise the provider, build the message
   * list, then dispatch on the provider name.
   */
  method CallLlm(provider: string, role: string, personality: string, expertise: string,
                 puzzle: string, conversationHistory: string, prompt: string, llm: Oracle, call: nat)
    returns (result: CallResult)
    ensures result == CallLlmSpec(provider, role, personality, expertise, puzzle, conversationHistory, prompt, llm, call)
  {
    var p := Strip(Lower(provider));
    var messages := BuildMessages(SystemPrompt(role, personality, expertise), puzzle, conversationHistory, prompt);
    var response := Dispatch(p, messages, llm, call);
    if response.None? {
      return Refused(UnknownProviderMessage(p));
    }
    result := Answered(p, role, personality, expertise, response.value);
  }

  /** `call_llm` itself over the adapters `llm`, as the function the engine calls. */
  function CallLlmOf(llm: Oracle): CallLlmFn {
    (n: nat, a: CallArgs) => CallLlmSpec(a.provider, a.role, a.personality, a.expertise, a.puzzle, a.history, a.prompt, llm, n)
  }

  /** One entry of `debate_history`: a reply, or the error of a refused call. */
  datatype Record =
    | Said(role: string, model: string, personality: string, expertise: string, message: string)
    | Failed(role: string, model: string, error: string)

  /** `run_debate` (pushes to the front end, keeps a history) or `run_debate_streaming`. */
  datatype Mode = Batch | Streaming(hasCallback: bool)

  /** What stays fixed during a debate. */
  datatype Setup = Setup(mode: Mode, puzzle: string, facilitator: Card, maxRounds: int, callLlm: CallLlmFn, shuffle: Shuffler)

  /**
   * The engine's running state: the number of `call_llm` calls made, the
   * history, the conversation text, the events emitted and the final answer.
   */
  datatype Progress = Progress(calls: nat, history: seq<Record>, transcript: string, events: seq<Event>, final: Option<string>)

  const TurnPrompt := "It is now your turn to speak."

  /** `"that is the answer" in reply.lower()`. */
  predicate Concludes(reply: string) {
    Contains(Lower(reply), Phrase)
  }

  /** The text one reply adds to the conversation: `f"\n[{tag}]: {reply}\n"`. */
  function TranscriptLine(tag: string, reply: string): string {
    "\n[" + tag + "]: " + reply + "\n"
  }

  /** The front-end notices, code point for code point as the source writes them. */
  function StartNotice(puzzle: string): string {
    "\U{F0}\U{178}\U{17D}\U{AF} Starting debate on: " + puzzle
  }

  function RoundNotice(r: nat, maxRounds: int): string {
    "\U{F0}\U{178}\U{201C}\U{A2} Round " + NatToString(r + 1) + " of " + IntToString(maxRounds)
  }

  const ConcludedNotice := "\U{E2}\U{153}\U{2026} Debate concluded! " + "Final answer reached."

  function EndedNotice(maxRounds: int): string {
    "\U{E2}\U{B1}\U{EF}\U{B8} " + "Debate ended after " + IntToString(maxRounds) + " rounds without conclusion."
  }

  /** The provider a card is called with: `run_debate` normalises aliases first, the streaming copy does not. */
  function ProviderOf(mode: Mode, model: Option<string>): string {
    if mode.Batch? then NormaliseAlias(Field(model, "openai")) else Field(model, "openai")
  }

  /** Emits one turn's event: a push in `run_debate`, a callback (if any) when streaming. */
  function Announce(mode: Mode, events: seq<Event>, push: Event, callback: Event): seq<Event> {
    match mode
    case Batch => events + [push]
    case Streaming(hasCallback) => if hasCallback then events + [callback] else events
  }

  /** Appends to `debate_history`, which only `run_debate` keeps. */
  function Log(mode: Mode, history: seq<Record>, rec: Record): seq<Record> {
    if mode.Batch? then history + [rec] else history
  }

  /** The error text pushed for a refused call: `f"[{model}] Error: {error_msg}"`. */
  function ErrorNotice(model: string, message: string): string {
    "[" + model + "] Error: " + message
  }

  /** The call a participant's turn makes (lines 316-336, streaming copy 487-497). */
  function ParticipantCall(s: Setup, st: Progress, card: Card): CallResult {
    s.callLlm(st.calls, CallArgs(ProviderOf(s.mode, card.model), Field(card.role, "reasoner"),
                                 Field(card.personality, "analytical"), Field(card.expertise, "general"),
                                 s.puzzle, st.transcript, TurnPrompt))
  }

  /** The history record of a participant's call: the reply, or the error. */
  function ParticipantRecord(card: Card, result: CallResult): Record {
    var role := Field(card.role, "unknown");
    var model := Field(card.model, "unknown");
    match result
    case Answered(_, _, _, _, response) => Said(role, model, Field(card.personality, ""), Field(card.expertise, ""), response)
    case Refused(message) => Failed(role, model, message)
  }

  /** What a participant's turn records of the call's result (lines 338-368, streaming copy 499-512). */
  function AfterParticipant(s: Setup, st: Progress, card: Card, result: CallResult): Progress {
    var role := Field(card.role, "unknown");
    var model := Field(card.model, "unknown");
    match result
    case Answered(_, _, _, _, response) =>
      Progress(st.calls + 1,
               Log(s.mode, st.history, ParticipantRecord(card, result)),
               st.transcript + TranscriptLine(Upper(role), response),
               Announce(s.mode, st.events, PushOf(role, response, model), Callback(role, response, model)),
               st.final)
    case Refused(message) =>
      Progress(st.calls + 1,
               Log(s.mode, st.history, ParticipantRecord(card, result)),
               st.transcript,
               Announce(s.mode, st.events, PushOf("error", ErrorNotice(model, message), ""), Callback("error", message, model)),
               st.final)
  }

  /** One participant's turn. */
  function ParticipantTurn(s: Setup, st: Progress, card: Card): Progress {
    AfterParticipant(s, st, card, ParticipantCall(s, st, card))
  }

  /** The call the facilitator's turn makes (lines 370-391, streaming copy 514-523). */
  function FacilitatorCall(s: Setup, st: Progress): CallResult {
    var fac := s.facilitator;
    s.callLlm(st.calls, CallArgs(ProviderOf(s.mode, fac.model), "facilitator",
                                 Field(fac.personality, "decisive"), Field(fac.expertise, "leadership"),
                                 s.puzzle, st.transcript, TurnPrompt))
  }

  /** The history record of the facilitator's call: the reply, or the error. */
  function FacilitatorRecord(fac: Card, result: CallResult): Record {
    var model := Field(fac.model, "unknown");
    match result
    case Answered(_, _, _, _, response) => Said("facilitator", model, Field(fac.personality, ""), Field(fac.expertise, ""), response)
    case Refused(message) => Failed("facilitator", model, message)
  }

  /** What the facilitator's turn records of the call's result (lines 393-422, streaming copy 525-539). */
  function AfterFacilitator(s: Setup, st: Progress, result: CallResult): Progress {
    var fac := s.facilitator;
    var model := Field(fac.model, "unknown");
    match result
    case Answered(_, _, _, _, response) =>
      Progress(st.calls + 1,
               Log(s.mode, st.history, FacilitatorRecord(fac, result)),
               st.transcript + TranscriptLine("FACILITATOR", response),
               Announce(s.mode, st.events, PushOf("facilitator", response, model), Callback("facilitator", response, model))
               + (if Concludes(response) && s.mode.Batch? then [PushOf("system", ConcludedNotice, "")] else []),
               if Concludes(response) then Some(response) else st.final)
    case Refused(message) =>
      Progress(st.calls + 1,
               Log(s.mode, st.history, FacilitatorRecord(fac, result)),
               st.transcript,
               Announce(s.mode, st.events, PushOf("error", ErrorNotice(model, message), ""), Callback("error", message, model)),
               st.final)
  }

  /** The facilitator's turn. */
  function FacilitatorTurn(s: Setup, st: Progress): Progress {
    AfterFacilitator(s, st, FacilitatorCall(s, st))
  }

  /** The participants speak in the given order. */
  function SpeakAll(s: Setup, st: Progress, order: seq<Card>): Progress
    decreases |order|
  {
    if order == [] then st else ParticipantTurn(s, SpeakAll(s, st, order[..|order| - 1]), order[|order| - 1])
  }

  /** The round notice `run_debate` pushes when round `r` begins. */
  function OpenRound(s: Setup, st: Progress, r: nat): Progress {
    if s.mode.Batch? then st.(events := st.events + [PushOf("system", RoundNotice(r, s.maxRounds), "")]) else st
  }

  /** Round `r`, with the participants in the given (shuffled) order. */
  function Round(s: Setup, st: Progress, r: nat, order: seq<Card>): Progress {
    FacilitatorTurn(s, SpeakAll(s, OpenRound(s, st, r), order))
  }

  /**
   * The round loop from round `r` on, with `participants` in the order the
   * previous round left them: the final state and the number of rounds
   * begun in total (the last `round_num + 1`, or `r` when no round runs).
   */
  function Rounds(s: Setup, st: Progress, participants: seq<Card>, r: nat): (Progress, nat)
    decreases s.maxRounds - r
  {
    if r >= s.maxRounds then (st, r)
    else
      var order := s.shuffle(r, participants);
      var next := Round(s, st, r, order);
      if next.final.Some? then (next, r + 1) else Rounds(s, next, order, r + 1)
  }

  /** The state before the first round. */
  function Start(s: Setup): Progress {
    Progress(0, [], "", if s.mode.Batch? then [PushOf("system", StartNotice(s.puzzle), "")] else [], None)
  }

  /** The outcome of validating the cards and splitting off the facilitator. */
  datatype Split = TooFewCards | NoFacilitator | Ready(facilitator: Card, participants: seq<Card>)

  function SplitOf(cards: seq<Card>): Split {
    if |cards| < 2 then TooFewCards
    else match LastFacilitator(cards)
      case None => NoFacilitator
      case Some(fac) => Ready(fac, NonFacilitators(cards))
  }

  /** The `cards` argument of `run_debate`: a parsed list, or a JSON string that failed to parse. */
  datatype CardsInput = CardList(cards: seq<Card>) | Undecodable(reason: string)

  const NoFacilitatorMessage := "No facilitator found in cards. " + "One card must have role='facilitator'"

  /** The dictionary `run_debate` returns, or the exception it raises. */
  datatype DebateOutcome =
    | Rejected(message: string)
    | Completed(roundsCompleted: nat, history: seq<Record>, finalAnswer: Option<string>, transcript: string)
    | Crashed   // `round_num` is unbound at line 431 when no round ran

  /** `run_debate(puzzle, cards, max_rounds)`: its result and the pushes it makes. */
  function DebateSpec(puzzle: string, input: CardsInput, maxRounds: int, callLlm: CallLlmFn, shuffle: Shuffler): (DebateOutcome, seq<Event>) {
    match input
    case Undecodable(reason) => (Rejected("Invalid cards JSON: " + reason), [])
    case CardList(cards) =>
      match SplitOf(cards)
      case TooFewCards => (Rejected("Need at least 2 cards to run a debate"), [])
      case NoFacilitator => (Rejected(NoFacilitatorMessage), [])
      case Ready(fac, participants) => Played(Setup(Batch, puzzle, fac, maxRounds, callLlm, shuffle), participants)
  }

  /** `run_debate` once the cards are accepted: the rounds, the closing notice and the result. */
  function Played(s: Setup, participants: seq<Card>): (DebateOutcome, seq<Event>) {
    var result := Rounds(s, Start(s), participants, 0);
    var st := result.0;
    var n := result.1;
    var events := st.events + (if st.final.None? then [PushOf("system", EndedNotice(s.maxRounds), "")] else []);
    if n == 0 then (Crashed, events) else (Completed(n, st.history, st.final, st.transcript), events)
  }

  /** The dictionary `run_debate_streaming` returns. */
  datatype StreamOutcome = StreamRejected(message: string) | StreamCompleted(finalAnswer: Option<string>)

  /** `run_debate_streaming(puzzle, cards, max_rounds, on_message)`: its result and the callbacks it makes. */
  function StreamingSpec(puzzle: string, cards: seq<Card>, maxRounds: int, hasCallback: bool,
                         callLlm: CallLlmFn, shuffle: Shuffler): (StreamOutcome, seq<Event>) {
    match SplitOf(cards)
    case TooFewCards => (StreamRejected("Need at least 2 cards"), [])
    case NoFacilitator => (StreamRejected("No facilitator found"), [])
    case Ready(fac, participants) =>
      var s := Setup(Streaming(hasCallback), puzzle, fac, maxRounds, callLlm, shuffle);
      var st := Rounds(s, Start(s), participants, 0).0;
      (StreamCompleted(st.final), st.events)
  }

}
