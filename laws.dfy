/**
 * What the debate engine promises, proved about the specification functions
 * of `Debate`: every call leaves exactly one history record, the conversation
 * text is the successful replies in order, the loop stops right after a
 * concluding facilitator reply or after the last round, and rejected card
 * lists make no call at all.
 *
 * Each fact is carried up the levels of the engine one lemma per level: a
 * turn, the participants of a round, a round, and the round loop.
 */
module DebateLaws {
  import opened Wrappers
  import opened Text
  import opened Cards
  import opened Frontend
  import opened Providers
  import opened Debate

  /** `later` continues `earlier`: history, conversation text and events are only appended to. */
  predicate Extends(earlier: Progress, later: Progress) {
    && earlier.calls <= later.calls
    && earlier.history <= later.history
    && earlier.transcript <= later.transcript
    && earlier.events <= later.events
  }

  /** The text a record stands for in the conversation: a reply under its role in capitals; an error, nothing. */
  function LineOf(rec: Record): string {
    match rec
    case Said(role, _, _, _, message) => TranscriptLine(Upper(role), message)
    case Failed(_, _, _) => ""
  }

  /** The conversation text a history stands for. */
  function Render(history: seq<Record>): string
    decreases |history|
  {
    if history == [] then "" else Render(history[..|history| - 1]) + LineOf(history[|history| - 1])
  }

  lemma RenderAppend(history: seq<Record>, rec: Record)
    ensures Render(history + [rec]) == Render(history) + LineOf(rec)
  {
    assert (history + [rec])[..|history|] == history;
  }

  /** `run_debate`'s bookkeeping: one history record per call, and the conversation text rendered from them. */
  predicate BatchKept(st: Progress) {
    |st.history| == st.calls && st.transcript == Render(st.history)
  }

  /** The streaming copy's bookkeeping: no history, and one callback per call when there is a callback. */
  predicate StreamKept(hasCallback: bool, st: Progress) {
    && st.history == []
    && |st.events| == (if hasCallback then st.calls else 0)
    && forall i :: 0 <= i < |st.events| ==> st.events[i].Callback?
  }

  /** Who a record is from: its role and its model. */
  function SpeakerOf(rec: Record): (string, string) {
    (rec.role, rec.model)
  }

  /** Who a card speaks as in the history: its role and model, "unknown" when missing. */
  function Seat(card: Card): (string, string) {
    (Field(card.role, "unknown"), Field(card.model, "unknown"))
  }

  /** Who the facilitator speaks as in the history. */
  function FacilitatorSeat(fac: Card): (string, string) {
    ("facilitator", Field(fac.model, "unknown"))
  }

  /** The speakers of a history, in order. */
  function Speakers(history: seq<Record>): seq<(string, string)>
    decreases |history|
  {
    if history == [] then [] else Speakers(history[..|history| - 1]) + [SpeakerOf(history[|history| - 1])]
  }

  /** The seats of cards speaking in the given order. */
  function Seats(order: seq<Card>): seq<(string, string)>
    decreases |order|
  {
    if order == [] then [] else Seats(order[..|order| - 1]) + [Seat(order[|order| - 1])]
  }

  lemma SpeakersAppend(history: seq<Record>, rec: Record)
    ensures Speakers(history + [rec]) == Speakers(history) + [SpeakerOf(rec)]
  {
    assert (history + [rec])[..|history|] == history;
  }

  /**
   * How the streaming copy stands after a concluding reply: the last callback
   * is the facilitator's reply, which is the final answer.
   */
  predicate EndsWithCallback(fac: Card, st: Progress) {
    && st.final.Some?
    && |st.events| > 0
    && st.events[|st.events| - 1] == Callback("facilitator", st.final.value, Field(fac.model, "unknown"))
  }

  /**
   * How `run_debate` stands after a concluding reply: the final answer
   * concludes, the last record is the facilitator's reply, which is the final
   * answer, and the last push is the "concluded" notice.
   */
  predicate EndsWithConclusion(st: Progress) {
    && st.final.Some?
    && Concludes(st.final.value)
    && |st.history| > 0
    && |st.events| > 0
    && var rec := st.history[|st.history| - 1];
    && rec.Said? && rec.role == "facilitator" && rec.message == st.final.value
    && st.events[|st.events| - 1] == PushOf("system", ConcludedNotice, "")
  }

  /** The facilitator's replies in a history, in order (its failed calls left out). */
  function FacilitatorReplies(history: seq<Record>): seq<string>
    decreases |history|
  {
    if history == [] then []
    else
      var rec := history[|history| - 1];
      FacilitatorReplies(history[..|history| - 1]) + (if rec.Said? && rec.role == "facilitator" then [rec.message] else [])
  }

  lemma FacilitatorRepliesAppend(history: seq<Record>, rec: Record)
    ensures FacilitatorReplies(history + [rec])
            == FacilitatorReplies(history) + (if rec.Said? && rec.role == "facilitator" then [rec.message] else [])
  {
    assert (history + [rec])[..|history|] == history;
  }

  /** The facilitator's replies as the streaming callback announced them, in order (its errors left out). */
  function FacilitatorCallbacks(events: seq<Event>): seq<string>
    decreases |events|
  {
    if events == [] then []
    else
      var e := events[|events| - 1];
      FacilitatorCallbacks(events[..|events| - 1]) + (if e.Callback? && e.role == "facilitator" then [e.message] else [])
  }

  lemma FacilitatorCallbacksAppend(events: seq<Event>, e: Event)
    ensures FacilitatorCallbacks(events + [e])
            == FacilitatorCallbacks(events) + (if e.Callback? && e.role == "facilitator" then [e.message] else [])
  {
    assert (events + [e])[..|events|] == events;
  }

  /**
   * Where the facilitator's replies can be seen: the history of `run_debate`,
   * the callbacks of `run_debate_streaming` when it is given a callback.
   */
  predicate Observed(mode: Mode) {
    mode.Batch? || mode.hasCallback
  }

  /** The facilitator's replies so far, as the mode shows them. */
  function Replies(mode: Mode, st: Progress): seq<string> {
    if mode.Batch? then FacilitatorReplies(st.history) else FacilitatorCallbacks(st.events)
  }

  /** None of the replies contains the termination phrase. */
  predicate Undecided(replies: seq<string>) {
    forall i :: 0 <= i < |replies| ==> !Concludes(replies[i])
  }

  /**
   * The final answer, if any, is the facilitator's first concluding reply as
   * the mode shows them: without an answer no reply of the facilitator
   * concludes; with one, the answer is its last reply and none before it
   * concludes.
   */
  predicate FirstAnswer(mode: Mode, st: Progress) {
    var replies := Replies(mode, st);
    if st.final.None? then Undecided(replies)
    else |replies| > 0 && replies[|replies| - 1] == st.final.value && Undecided(replies[..|replies| - 1])
  }

  /**
   * The speakers of rounds `r` to `n - 1` when the participants start in the
   * given order: in each round the participants in that round's shuffled
   * order, then the facilitator.
   */
  function RoundSeats(s: Setup, participants: seq<Card>, r: nat, n: nat): seq<(string, string)>
    decreases n - r
  {
    if r >= n then []
    else
      var order := s.shuffle(r, participants);
      Seats(order) + [FacilitatorSeat(s.facilitator)] + RoundSeats(s, order, r + 1, n)
  }

  /** The model a callback names. */
  function ModelOf(e: Event): string {
    if e.Callback? then e.model else ""
  }

  /** The models the callbacks name, in order. */
  function CallbackModels(events: seq<Event>): seq<string>
    decreases |events|
  {
    if events == [] then [] else CallbackModels(events[..|events| - 1]) + [ModelOf(events[|events| - 1])]
  }

  /** The models of cards speaking in the given order, "unknown" when missing. */
  function CardModels(order: seq<Card>): seq<string>
    decreases |order|
  {
    if order == [] then [] else CardModels(order[..|order| - 1]) + [Field(order[|order| - 1].model, "unknown")]
  }

  /**
   * The models the streaming callbacks of rounds `r` to `n - 1` name: in each
   * round the participants' in that round's shuffled order, then the
   * facilitator's.
   */
  function RoundModels(s: Setup, participants: seq<Card>, r: nat, n: nat): seq<string>
    decreases n - r
  {
    if r >= n then []
    else
      var order := s.shuffle(r, participants);
      CardModels(order) + [Field(s.facilitator.model, "unknown")] + RoundModels(s, order, r + 1, n)
  }

  lemma CallbackModelsAppend(events: seq<Event>, e: Event)
    ensures CallbackModels(events + [e]) == CallbackModels(events) + [ModelOf(e)]
  {
    assert (events + [e])[..|events|] == events;
  }

  // ---------------------------------------------------------------- turns

  /**
   * A participant's turn makes one call, only appends, adds to the
   * conversation text exactly when the call is answered, and never sets the
   * final answer.
   */
  lemma ParticipantTurnGrows(s: Setup, st: Progress, card: Card)
    ensures var next := ParticipantTurn(s, st, card);
      && Extends(st, next)
      && next.calls == st.calls + 1
      && next.final == st.final
      && (next.transcript != st.transcript <==> ParticipantCall(s, st, card).Answered?)
      && next.transcript == st.transcript + LineOf(ParticipantRecord(card, ParticipantCall(s, st, card)))
  {
  }

  /**
   * In `run_debate` a participant's turn appends the record of its call to
   * the history, and that record's line to the conversation text.
   */
  lemma ParticipantTurnBatch(s: Setup, st: Progress, card: Card)
    requires s.mode.Batch?
    ensures var next := ParticipantTurn(s, st, card);
      var rec := ParticipantRecord(card, ParticipantCall(s, st, card));
      && next.calls == st.calls + 1
      && next.history == st.history + [rec]
      && next.transcript == st.transcript + LineOf(rec)
      && SpeakerOf(rec) == Seat(card)
      && next.events == st.events + [ParticipantPush(card, ParticipantCall(s, st, card))]
  {
  }

  /**
   * The push of a participant's turn in `run_debate`: its reply under its role
   * and model, or an error notice under role "error".
   */
  function ParticipantPush(card: Card, result: CallResult): Event {
    var model := Field(card.model, "unknown");
    if result.Answered? then PushOf(Field(card.role, "unknown"), result.response, model)
    else PushOf("error", ErrorNotice(model, result.message), "")
  }

  /** The callback of a participant's turn in the streaming copy: its reply, or the error message under role "error". */
  function ParticipantCallback(card: Card, result: CallResult): Event {
    var model := Field(card.model, "unknown");
    if result.Answered? then Callback(Field(card.role, "unknown"), result.response, model)
    else Callback("error", result.message, model)
  }

  /**
   * In the streaming copy a participant's turn makes its one callback, when
   * there is a callback, and nothing else.
   */
  lemma ParticipantTurnStreaming(s: Setup, st: Progress, card: Card)
    requires s.mode.Streaming?
    ensures StreamKept(s.mode.hasCallback, st) ==> StreamKept(s.mode.hasCallback, ParticipantTurn(s, st, card))
    ensures ParticipantTurn(s, st, card).events
            == st.events + (if s.mode.hasCallback then [ParticipantCallback(card, ParticipantCall(s, st, card))] else [])
  {
  }

  /**
   * The facilitator's turn makes one call and only appends; it sets the final
   * answer exactly when the call is answered with a concluding reply, and
   * then to that reply.
   */
  lemma FacilitatorTurnGrows(s: Setup, st: Progress)
    requires st.final.None?
    ensures var next := FacilitatorTurn(s, st);
      var result := FacilitatorCall(s, st);
      && Extends(st, next)
      && next.calls == st.calls + 1
      && (next.final.Some? <==> result.Answered? && Concludes(result.response))
      && (next.final.Some? ==> next.final.value == result.response)
      && next.transcript == st.transcript + LineOf(FacilitatorRecord(s.facilitator, result))
  {
    assert Upper("facilitator") == "FACILITATOR";
  }

  /**
   * In `run_debate` the facilitator's turn appends the record of its call to
   * the history, and that record's line to the conversation text.
   */
  lemma FacilitatorTurnBatch(s: Setup, st: Progress)
    requires s.mode.Batch?
    ensures var next := FacilitatorTurn(s, st);
      var rec := FacilitatorRecord(s.facilitator, FacilitatorCall(s, st));
      && next.calls == st.calls + 1
      && next.history == st.history + [rec]
      && next.transcript == st.transcript + LineOf(rec)
      && SpeakerOf(rec) == FacilitatorSeat(s.facilitator)
      && next.events == st.events + FacilitatorPushes(s.facilitator, FacilitatorCall(s, st))
  {
    assert Upper("facilitator") == "FACILITATOR";
    var result := FacilitatorCall(s, st);
    var model := Field(s.facilitator.model, "unknown");
    if result.Answered? {
      assert FacilitatorTurn(s, st).events
             == st.events + [PushOf("facilitator", result.response, model)]
                + (if Concludes(result.response) then [PushOf("system", ConcludedNotice, "")] else []);
    }
  }

  /**
   * In `run_debate` the facilitator's turn ends the debate exactly when its
   * record is a concluding reply, and then with the conclusion.
   */
  lemma FacilitatorTurnConcludes(s: Setup, st: Progress)
    requires s.mode.Batch?
    requires st.final.None?
    ensures var next := FacilitatorTurn(s, st);
      var rec := FacilitatorRecord(s.facilitator, FacilitatorCall(s, st));
      && (next.final.Some? <==> rec.Said? && Concludes(rec.message))
      && (next.final.Some? ==> EndsWithConclusion(next))
  {
    FacilitatorTurnBatch(s, st);
  }

  /**
   * The pushes of the facilitator's turn in `run_debate`: its reply in the
   * facilitator's colour, followed by the concluded notice when the reply
   * contains the phrase, or an error notice under role "error".
   */
  function FacilitatorPushes(fac: Card, result: CallResult): seq<Event> {
    var model := Field(fac.model, "unknown");
    if result.Answered? then
      [PushOf("facilitator", result.response, model)]
      + (if Concludes(result.response) then [PushOf("system", ConcludedNotice, "")] else [])
    else [PushOf("error", ErrorNotice(model, result.message), "")]
  }

  /** The callback of the facilitator's turn in the streaming copy: its reply, or the error message under role "error". */
  function FacilitatorCallback(fac: Card, result: CallResult): Event {
    var model := Field(fac.model, "unknown");
    if result.Answered? then Callback("facilitator", result.response, model)
    else Callback("error", result.message, model)
  }

  /**
   * In the streaming copy the facilitator's turn makes its one callback, when
   * there is a callback, and nothing else: no concluded notice.
   */
  lemma FacilitatorTurnStreaming(s: Setup, st: Progress)
    requires s.mode.Streaming?
    ensures StreamKept(s.mode.hasCallback, st) ==> StreamKept(s.mode.hasCallback, FacilitatorTurn(s, st))
    ensures FacilitatorTurn(s, st).events
            == st.events + (if s.mode.hasCallback then [FacilitatorCallback(s.facilitator, FacilitatorCall(s, st))] else [])
  {
  }

  // ---------------------------------------------------------------- the participants of a round

  /** The participants speak once each: one call apiece, only appending, no final answer. */
  lemma {:induction false} SpeakAllGrows(s: Setup, st: Progress, order: seq<Card>)
    ensures var next := SpeakAll(s, st, order);
      && Extends(st, next)
      && next.calls == st.calls + |order|
      && next.final == st.final
    decreases |order|
  {
    if order != [] {
      var init := order[..|order| - 1];
      SpeakAllGrows(s, st, init);
      ParticipantTurnGrows(s, SpeakAll(s, st, init), order[|order| - 1]);
    }
  }

  /** `run_debate`'s bookkeeping survives the participants' turns. */
  lemma {:induction false} SpeakAllKept(s: Setup, st: Progress, order: seq<Card>)
    requires s.mode.Batch?
    requires BatchKept(st)
    ensures BatchKept(SpeakAll(s, st, order))
    decreases |order|
  {
    if order != [] {
      var init := order[..|order| - 1];
      var card := order[|order| - 1];
      var mid := SpeakAll(s, st, init);
      SpeakAllKept(s, st, init);
      ParticipantTurnBatch(s, mid, card);
      RenderAppend(mid.history, ParticipantRecord(card, ParticipantCall(s, mid, card)));
    }
  }

  /** In `run_debate` the participants leave one record each, in the order they speak. */
  lemma {:induction false} SpeakAllSpeakers(s: Setup, st: Progress, order: seq<Card>)
    requires s.mode.Batch?
    ensures Speakers(SpeakAll(s, st, order).history) == Speakers(st.history) + Seats(order)
    decreases |order|
  {
    if order != [] {
      var init := order[..|order| - 1];
      var card := order[|order| - 1];
      var mid := SpeakAll(s, st, init);
      SpeakAllSpeakers(s, st, init);
      ParticipantTurnBatch(s, mid, card);
      SpeakersAppend(mid.history, ParticipantRecord(card, ParticipantCall(s, mid, card)));
    }
  }

  lemma {:induction false} SpeakAllStreaming(s: Setup, st: Progress, order: seq<Card>)
    requires s.mode.Streaming?
    ensures StreamKept(s.mode.hasCallback, st) ==> StreamKept(s.mode.hasCallback, SpeakAll(s, st, order))
    decreases |order|
  {
    if order != [] {
      var init := order[..|order| - 1];
      SpeakAllStreaming(s, st, init);
      ParticipantTurnStreaming(s, SpeakAll(s, st, init), order[|order| - 1]);
    }
  }

  // ---------------------------------------------------------------- a round

  /**
   * A round makes one call per participant plus one for the facilitator,
   * only appends, and sets the final answer only to a concluding reply.
   */
  lemma RoundGrows(s: Setup, st: Progress, r: nat, order: seq<Card>)
    requires st.final.None?
    ensures var next := Round(s, st, r, order);
      && Extends(st, next)
      && next.calls == st.calls + |order| + 1
      && (next.final.Some? ==> Concludes(next.final.value))
  {
    var atStart := OpenRound(s, st, r);
    SpeakAllGrows(s, atStart, order);
    FacilitatorTurnGrows(s, SpeakAll(s, atStart, order));
  }

  /** `run_debate`'s bookkeeping survives a round. */
  lemma RoundKept(s: Setup, st: Progress, r: nat, order: seq<Card>)
    requires s.mode.Batch?
    requires BatchKept(st)
    ensures BatchKept(Round(s, st, r, order))
  {
    var mid := SpeakAll(s, OpenRound(s, st, r), order);
    SpeakAllKept(s, OpenRound(s, st, r), order);
    FacilitatorTurnBatch(s, mid);
    RenderAppend(mid.history, FacilitatorRecord(s.facilitator, FacilitatorCall(s, mid)));
  }

  /**
   * In `run_debate` a round leaves a block of records: one per participant in
   * the round's order, then the facilitator's.
   */
  lemma RoundSpeakers(s: Setup, st: Progress, r: nat, order: seq<Card>)
    requires s.mode.Batch?
    ensures Speakers(Round(s, st, r, order).history)
            == Speakers(st.history) + Seats(order) + [FacilitatorSeat(s.facilitator)]
  {
    var mid := SpeakAll(s, OpenRound(s, st, r), order);
    SpeakAllSpeakers(s, OpenRound(s, st, r), order);
    FacilitatorTurnBatch(s, mid);
    SpeakersAppend(mid.history, FacilitatorRecord(s.facilitator, FacilitatorCall(s, mid)));
  }

  /**
   * A round of `run_debate` ends the debate exactly when the facilitator's
   * record is a concluding reply, and then ends with the conclusion.
   */
  lemma RoundConcludes(s: Setup, st: Progress, r: nat, order: seq<Card>)
    requires s.mode.Batch?
    requires st.final.None?
    ensures var next := Round(s, st, r, order);
      && |next.history| > 0
      && var rec := next.history[|next.history| - 1];
      && (next.final.Some? <==> rec.Said? && Concludes(rec.message))
      && (next.final.Some? ==> EndsWithConclusion(next))
  {
    var mid := SpeakAll(s, OpenRound(s, st, r), order);
    SpeakAllGrows(s, OpenRound(s, st, r), order);
    FacilitatorTurnBatch(s, mid);
    FacilitatorTurnConcludes(s, mid);
  }

  lemma RoundStreaming(s: Setup, st: Progress, r: nat, order: seq<Card>)
    requires s.mode.Streaming?
    ensures StreamKept(s.mode.hasCallback, st) ==> StreamKept(s.mode.hasCallback, Round(s, st, r, order))
  {
    SpeakAllStreaming(s, st, order);
    FacilitatorTurnStreaming(s, SpeakAll(s, st, order));
  }

  // ---------------------------------------------------------------- the round loop

  /**
   * The round loop from round `r` on only appends, and either stops right
   * after the first round whose facilitator concluded, returning that round's
   * number plus one, or runs every round up to `max_rounds` without a final
   * answer.
   */
  lemma {:induction false} RoundsGrow(s: Setup, st: Progress, participants: seq<Card>, r: nat)
    requires st.final.None?
    ensures var last := Rounds(s, st, participants, r).0;
      var n := Rounds(s, st, participants, r).1;
      && Extends(st, last)
      && (last.final.None? ==> n == (if r < s.maxRounds then s.maxRounds else r))
      && (last.final.Some? ==> r < n <= s.maxRounds && Concludes(last.final.value))
    decreases s.maxRounds - r
  {
    if r < s.maxRounds {
      var order := s.shuffle(r, participants);
      var next := Round(s, st, r, order);
      RoundGrows(s, st, r, order);
      if next.final.None? {
        assert Rounds(s, st, participants, r) == Rounds(s, next, order, r + 1);
        RoundsGrow(s, next, order, r + 1);
      }
    }
  }

  /** `run_debate`'s round loop keeps its bookkeeping. */
  lemma {:induction false} RoundsKept(s: Setup, st: Progress, participants: seq<Card>, r: nat)
    requires s.mode.Batch?
    requires st.final.None?
    requires BatchKept(st)
    ensures BatchKept(Rounds(s, st, participants, r).0)
    decreases s.maxRounds - r
  {
    if r < s.maxRounds {
      var order := s.shuffle(r, participants);
      var next := Round(s, st, r, order);
      RoundKept(s, st, r, order);
      if next.final.None? {
        assert Rounds(s, st, participants, r) == Rounds(s, next, order, r + 1);
        RoundsKept(s, next, order, r + 1);
      }
    }
  }

  /** When `run_debate`'s round loop leaves a final answer, it ends with the conclusion. */
  lemma {:induction false} RoundsConclude(s: Setup, st: Progress, participants: seq<Card>, r: nat)
    requires s.mode.Batch?
    requires st.final.None?
    ensures var last := Rounds(s, st, participants, r).0;
      last.final.Some? ==> EndsWithConclusion(last)
    decreases s.maxRounds - r
  {
    if r < s.maxRounds {
      var order := s.shuffle(r, participants);
      var next := Round(s, st, r, order);
      RoundConcludes(s, st, r, order);
      if next.final.None? {
        assert Rounds(s, st, participants, r) == Rounds(s, next, order, r + 1);
        RoundsConclude(s, next, order, r + 1);
      }
    }
  }

  lemma {:induction false} RoundsStreaming(s: Setup, st: Progress, participants: seq<Card>, r: nat)
    requires s.mode.Streaming?
    requires st.final.None?
    ensures StreamKept(s.mode.hasCallback, st) ==> StreamKept(s.mode.hasCallback, Rounds(s, st, participants, r).0)
    decreases s.maxRounds - r
  {
    if r < s.maxRounds {
      var order := s.shuffle(r, participants);
      var next := Round(s, st, r, order);
      RoundStreaming(s, st, r, order);
      RoundGrows(s, st, r, order);
      if next.final.None? {
        assert Rounds(s, st, participants, r) == Rounds(s, next, order, r + 1);
        RoundsStreaming(s, next, order, r + 1);
      }
    }
  }

  /** A streaming round that ends the debate ends with the facilitator's concluding callback. */
  lemma RoundConcludesStreaming(s: Setup, st: Progress, r: nat, order: seq<Card>)
    requires s.mode == Streaming(true)
    requires st.final.None?
    ensures var next := Round(s, st, r, order);
      next.final.Some? ==> EndsWithCallback(s.facilitator, next)
  {
    var mid := SpeakAll(s, st, order);
    assert OpenRound(s, st, r) == st;
    SpeakAllGrows(s, st, order);
    FacilitatorTurnStreaming(s, mid);
    FacilitatorTurnGrows(s, mid);
  }

  /**
   * When the streaming loop leaves a final answer, its last callback is the
   * facilitator's concluding reply: no one speaks after it.
   */
  lemma {:induction false} RoundsConcludeStreaming(s: Setup, st: Progress, participants: seq<Card>, r: nat)
    requires s.mode == Streaming(true)
    requires st.final.None?
    ensures var last := Rounds(s, st, participants, r).0;
      last.final.Some? ==> EndsWithCallback(s.facilitator, last)
    decreases s.maxRounds - r
  {
    if r < s.maxRounds {
      var order := s.shuffle(r, participants);
      var next := Round(s, st, r, order);
      RoundConcludesStreaming(s, st, r, order);
      if next.final.None? {
        assert Rounds(s, st, participants, r) == Rounds(s, next, order, r + 1);
        RoundsConcludeStreaming(s, next, order, r + 1);
      }
    }
  }

  /** The streaming callbacks of the participants name their models in the order they speak. */
  lemma {:induction false} SpeakAllCallbacks(s: Setup, st: Progress, order: seq<Card>)
    requires s.mode == Streaming(true)
    ensures CallbackModels(SpeakAll(s, st, order).events) == CallbackModels(st.events) + CardModels(order)
    decreases |order|
  {
    if order != [] {
      var init := order[..|order| - 1];
      var card := order[|order| - 1];
      var mid := SpeakAll(s, st, init);
      SpeakAllCallbacks(s, st, init);
      ParticipantTurnStreaming(s, mid, card);
      CallbackModelsAppend(mid.events, ParticipantCallback(card, ParticipantCall(s, mid, card)));
    }
  }

  /** A streaming round calls back for the participants in the round's order, then for the facilitator. */
  lemma RoundCallbacks(s: Setup, st: Progress, r: nat, order: seq<Card>)
    requires s.mode == Streaming(true)
    ensures CallbackModels(Round(s, st, r, order).events)
            == CallbackModels(st.events) + CardModels(order) + [Field(s.facilitator.model, "unknown")]
  {
    var mid := SpeakAll(s, st, order);
    assert OpenRound(s, st, r) == st;
    SpeakAllCallbacks(s, st, order);
    FacilitatorTurnStreaming(s, mid);
    CallbackModelsAppend(mid.events, FacilitatorCallback(s.facilitator, FacilitatorCall(s, mid)));
  }

  /**
   * A streaming round adds one block to the callbacks' models: the
   * participants in the round's order, then the facilitator; the blocks of
   * rounds `r` to `n` are that block followed by the blocks of the later
   * rounds.
   */
  lemma RoundModelsBlock(s: Setup, st: Progress, participants: seq<Card>, r: nat, n: nat)
    requires s.mode == Streaming(true)
    requires r < n
    ensures var order := s.shuffle(r, participants);
      var block := CardModels(order) + [Field(s.facilitator.model, "unknown")];
      && CallbackModels(Round(s, st, r, order).events) == CallbackModels(st.events) + block
      && RoundModels(s, participants, r, n) == block + RoundModels(s, order, r + 1, n)
  {
    RoundCallbacks(s, st, r, s.shuffle(r, participants));
  }

  /** A streaming round that ends the debate adds the last block of callbacks. */
  lemma RoundsCallbacksLast(s: Setup, st: Progress, participants: seq<Card>, r: nat)
    requires s.mode == Streaming(true)
    requires r < s.maxRounds
    requires Round(s, st, r, s.shuffle(r, participants)).final.Some?
    ensures CallbackModels(Rounds(s, st, participants, r).0.events)
            == CallbackModels(st.events) + RoundModels(s, participants, r, Rounds(s, st, participants, r).1)
  {
    var order := s.shuffle(r, participants);
    assert Rounds(s, st, participants, r) == (Round(s, st, r, order), r + 1);
    RoundModelsBlock(s, st, participants, r, r + 1);
    assert RoundModels(s, order, r + 1, r + 1) == [];
  }

  /**
   * The callbacks of the streaming loop are a sequence of round blocks: in
   * each round the participants in that round's shuffled order, then the
   * facilitator.
   */
  lemma {:induction false} RoundsCallbacks(s: Setup, st: Progress, participants: seq<Card>, r: nat)
    requires s.mode == Streaming(true)
    requires st.final.None?
    ensures CallbackModels(Rounds(s, st, participants, r).0.events)
            == CallbackModels(st.events) + RoundModels(s, participants, r, Rounds(s, st, participants, r).1)
    decreases s.maxRounds - r
  {
    if r < s.maxRounds {
      var order := s.shuffle(r, participants);
      var next := Round(s, st, r, order);
      if next.final.None? {
        assert Rounds(s, st, participants, r) == Rounds(s, next, order, r + 1);
        RoundsGrow(s, next, order, r + 1);
        RoundModelsBlock(s, st, participants, r, Rounds(s, st, participants, r).1);
        RoundsCallbacks(s, next, order, r + 1);
        var n := Rounds(s, st, participants, r).1;
        Blocks(CallbackModels(Rounds(s, st, participants, r).0.events), CallbackModels(next.events), CallbackModels(st.events),
               CardModels(order) + [Field(s.facilitator.model, "unknown")], RoundModels(s, order, r + 1, n),
               RoundModels(s, participants, r, n));
      } else {
        RoundsCallbacksLast(s, st, participants, r);
      }
    } else {
      assert RoundModels(s, participants, r, r) == [];
    }
  }

  /**
   * With a shuffler that only reorders, every round begun makes one call per
   * participant plus one for the facilitator.
   */
  lemma {:induction false} RoundsCallCount(s: Setup, st: Progress, participants: seq<Card>, r: nat)
    requires KeepsCount(s.shuffle)
    requires st.final.None?
    requires st.calls == Batches(r, |participants| + 1)
    ensures var last := Rounds(s, st, participants, r).0;
      var n := Rounds(s, st, participants, r).1;
      last.calls == Batches(n, |participants| + 1)
    decreases s.maxRounds - r
  {
    if r < s.maxRounds {
      var order := s.shuffle(r, participants);
      var next := Round(s, st, r, order);
      assert |order| == |participants|;
      RoundCallCount(s, st, r, order);
      if next.final.None? {
        assert Rounds(s, st, participants, r) == Rounds(s, next, order, r + 1);
        RoundsCallCount(s, next, order, r + 1);
      }
    }
  }

  /** A round of `|order|` participants and the facilitator adds one batch of `|order| + 1` calls. */
  lemma RoundCallCount(s: Setup, st: Progress, r: nat, order: seq<Card>)
    requires st.final.None?
    requires st.calls == Batches(r, |order| + 1)
    ensures Round(s, st, r, order).calls == Batches(r + 1, |order| + 1)
  {
    RoundGrows(s, st, r, order);
  }

  /** A reordering that keeps the number of cards. */
  ghost predicate KeepsCount(shuffle: Shuffler) {
    forall r, cards :: |shuffle(r, cards)| == |cards|
  }

  /** A shuffle only reorders, so it keeps the number of cards. */
  lemma ShuffleKeepsCount(shuffle: Shuffler)
    requires IsShuffle(shuffle)
    ensures KeepsCount(shuffle)
  {
    forall r, cards ensures |shuffle(r, cards)| == |cards| {
      assert |multiset(shuffle(r, cards))| == |shuffle(r, cards)|;
    }
  }

  /** `k` calls in each of `rounds` rounds. */
  function Batches(rounds: int, k: int): int
    decreases rounds
  {
    if rounds <= 0 then 0 else Batches(rounds - 1, k) + k
  }

  lemma {:induction false} BatchesIsProduct(rounds: nat, k: int)
    ensures Batches(rounds, k) == rounds * k
  {
    if rounds > 0 {
      BatchesIsProduct(rounds - 1, k);
    }
  }

  // ---------------------------------------------------------------- the first conclusion ends the debate

  /**
   * A card that is not a facilitator never speaks as "facilitator", so it adds
   * no facilitator reply, to the history or to the callbacks.
   */
  lemma ParticipantTurnReplies(s: Setup, st: Progress, card: Card)
    requires Observed(s.mode)
    requires !IsFacilitator(card)
    ensures Replies(s.mode, ParticipantTurn(s, st, card)) == Replies(s.mode, st)
  {
    var result := ParticipantCall(s, st, card);
    var role := Field(card.role, "unknown");
    var model := Field(card.model, "unknown");
    FacilitatorRolePasses(card);
    assert "unknown"[0] != "facilitator"[0];
    if s.mode.Batch? {
      var rec := ParticipantRecord(card, result);
      ParticipantTurnBatch(s, st, card);
      assert rec.role == role;
      FacilitatorRepliesAppend(st.history, rec);
    } else {
      var e := if result.Answered? then Callback(role, result.response, model) else Callback("error", result.message, model);
      assert ParticipantTurn(s, st, card).events == st.events + [e];
      assert "error"[0] != "facilitator"[0];
      FacilitatorCallbacksAppend(st.events, e);
    }
  }

  /** The participants' turns add no facilitator reply. */
  lemma {:induction false} SpeakAllReplies(s: Setup, st: Progress, order: seq<Card>)
    requires Observed(s.mode)
    requires forall c :: c in order ==> !IsFacilitator(c)
    ensures Replies(s.mode, SpeakAll(s, st, order)) == Replies(s.mode, st)
    decreases |order|
  {
    if order != [] {
      var init := order[..|order| - 1];
      var card := order[|order| - 1];
      assert forall c :: c in init ==> c in order;
      SpeakAllReplies(s, st, init);
      ParticipantTurnReplies(s, SpeakAll(s, st, init), card);
    }
  }

  /**
   * What the facilitator's turn adds to the replies: its reply when the call
   * is answered, nothing when it is refused.
   */
  lemma FacilitatorTurnAddsReply(s: Setup, st: Progress)
    requires Observed(s.mode)
    ensures var result := FacilitatorCall(s, st);
      Replies(s.mode, FacilitatorTurn(s, st)) == Replies(s.mode, st) + (if result.Answered? then [result.response] else [])
  {
    var result := FacilitatorCall(s, st);
    var model := Field(s.facilitator.model, "unknown");
    if s.mode.Batch? {
      var rec := FacilitatorRecord(s.facilitator, result);
      FacilitatorTurnBatch(s, st);
      FacilitatorRepliesAppend(st.history, rec);
    } else {
      var e := if result.Answered? then Callback("facilitator", result.response, model) else Callback("error", result.message, model);
      assert FacilitatorTurn(s, st).events == st.events + [e];
      assert "error"[0] != "facilitator"[0];
      FacilitatorCallbacksAppend(st.events, e);
    }
  }

  /**
   * Starting with no concluding facilitator reply, the facilitator's turn
   * leaves the final answer as its first concluding reply.
   */
  lemma FacilitatorTurnReplies(s: Setup, st: Progress)
    requires Observed(s.mode)
    requires st.final.None?
    ensures Undecided(Replies(s.mode, st)) ==> FirstAnswer(s.mode, FacilitatorTurn(s, st))
  {
    var next := FacilitatorTurn(s, st);
    FacilitatorTurnGrows(s, st);
    FacilitatorTurnAddsReply(s, st);
    if next.final.Some? {
      var replies := Replies(s.mode, next);
      assert replies[..|replies| - 1] == Replies(s.mode, st);
    }
  }

  /**
   * Starting with no concluding facilitator reply, a round leaves the final
   * answer as its first concluding reply: the participants add no
   * facilitator reply, and the facilitator's turn decides.
   */
  lemma RoundReplies(s: Setup, st: Progress, r: nat, order: seq<Card>)
    requires Observed(s.mode)
    requires st.final.None?
    requires forall c :: c in order ==> !IsFacilitator(c)
    ensures Undecided(Replies(s.mode, st)) ==> FirstAnswer(s.mode, Round(s, st, r, order))
  {
    var begun := OpenRound(s, st, r);
    assert Replies(s.mode, begun) == Replies(s.mode, st) by {
      if s.mode.Batch? {
        assert begun.history == st.history;
      }
    }
    SpeakAllReplies(s, begun, order);
    SpeakAllGrows(s, begun, order);
    FacilitatorTurnReplies(s, SpeakAll(s, begun, order));
  }

  /**
   * The round loop stops at the first concluding facilitator reply: without
   * an answer no reply of the facilitator concludes, and with one the answer
   * is the facilitator's last reply and none before it concludes.
   */
  lemma {:induction false} RoundsReplies(s: Setup, st: Progress, participants: seq<Card>, r: nat)
    requires Observed(s.mode)
    requires IsShuffle(s.shuffle)
    requires st.final.None?
    requires forall c :: c in participants ==> !IsFacilitator(c)
    requires Undecided(Replies(s.mode, st))
    ensures FirstAnswer(s.mode, Rounds(s, st, participants, r).0)
    decreases s.maxRounds - r
  {
    if r < s.maxRounds {
      var order := s.shuffle(r, participants);
      var next := Round(s, st, r, order);
      assert multiset(order) == multiset(participants);
      assert forall c :: c in order ==> c in multiset(participants);
      RoundReplies(s, st, r, order);
      if next.final.None? {
        assert Rounds(s, st, participants, r) == Rounds(s, next, order, r + 1);
        RoundsReplies(s, next, order, r + 1);
      }
    }
  }

  /**
   * A round adds one block to the speakers: the participants in the round's
   * order, then the facilitator; the blocks of rounds `r` to `n` are that
   * block followed by the blocks of the later rounds.
   */
  lemma RoundBlock(s: Setup, st: Progress, participants: seq<Card>, r: nat, n: nat)
    requires s.mode.Batch?
    requires r < n
    ensures var order := s.shuffle(r, participants);
      var block := Seats(order) + [FacilitatorSeat(s.facilitator)];
      && Speakers(Round(s, st, r, order).history) == Speakers(st.history) + block
      && RoundSeats(s, participants, r, n) == block + RoundSeats(s, order, r + 1, n)
  {
    RoundSpeakers(s, st, r, s.shuffle(r, participants));
  }

  /** A history that grows block by block. */
  lemma Blocks<T>(whole: seq<T>, mid: seq<T>, start: seq<T>, block: seq<T>, later: seq<T>, all: seq<T>)
    requires whole == mid + later && mid == start + block && all == block + later
    ensures whole == start + all
  {
    assert start + block + later == start + (block + later);
  }

  /** A round that ends the debate adds the last block of the history. */
  lemma RoundsSpeakersLast(s: Setup, st: Progress, participants: seq<Card>, r: nat)
    requires s.mode.Batch?
    requires r < s.maxRounds
    requires Round(s, st, r, s.shuffle(r, participants)).final.Some?
    ensures Speakers(Rounds(s, st, participants, r).0.history)
            == Speakers(st.history) + RoundSeats(s, participants, r, Rounds(s, st, participants, r).1)
  {
    var order := s.shuffle(r, participants);
    assert Rounds(s, st, participants, r) == (Round(s, st, r, order), r + 1);
    RoundBlock(s, st, participants, r, r + 1);
    assert RoundSeats(s, order, r + 1, r + 1) == [];
  }

  /**
   * The history of the round loop is a sequence of round blocks: in each
   * round the participants in that round's shuffled order, then the
   * facilitator.
   */
  lemma {:induction false} RoundsSpeakers(s: Setup, st: Progress, participants: seq<Card>, r: nat)
    requires s.mode.Batch?
    requires st.final.None?
    ensures Speakers(Rounds(s, st, participants, r).0.history)
            == Speakers(st.history) + RoundSeats(s, participants, r, Rounds(s, st, participants, r).1)
    decreases s.maxRounds - r
  {
    if r < s.maxRounds {
      var order := s.shuffle(r, participants);
      var next := Round(s, st, r, order);
      if next.final.None? {
        assert Rounds(s, st, participants, r) == Rounds(s, next, order, r + 1);
        RoundsGrow(s, next, order, r + 1);
        RoundBlock(s, st, participants, r, Rounds(s, st, participants, r).1);
        RoundsSpeakers(s, next, order, r + 1);
        var n := Rounds(s, st, participants, r).1;
        Blocks(Speakers(Rounds(s, st, participants, r).0.history), Speakers(next.history), Speakers(st.history),
               Seats(order) + [FacilitatorSeat(s.facilitator)], RoundSeats(s, order, r + 1, n), RoundSeats(s, participants, r, n));
      } else {
        RoundsSpeakersLast(s, st, participants, r);
      }
    } else {
      assert RoundSeats(s, participants, r, r) == [];
    }
  }

  // ---------------------------------------------------------------- run_debate and run_debate_streaming

  /** Once the cards are accepted, `run_debate` crashes exactly when `max_rounds` is not positive. */
  lemma PlayedCrashes(s: Setup, participants: seq<Card>)
    requires s.mode.Batch?
    ensures Played(s, participants).0.Crashed? <==> s.maxRounds <= 0
    ensures !Played(s, participants).0.Rejected?
  {
    var n := Rounds(s, Start(s), participants, 0).1;
    RoundsGrow(s, Start(s), participants, 0);
    assert n == 0 <==> s.maxRounds <= 0;
    assert Played(s, participants).0.Crashed? <==> n == 0;
  }

  /**
   * `run_debate` rejects exactly an undecodable card list, fewer than two
   * cards, and a list without a facilitator, and pushes nothing then; past
   * those checks it crashes exactly when `max_rounds` is not positive.
   */
  lemma DebateRejections(puzzle: string, input: CardsInput, maxRounds: int, callLlm: CallLlmFn, shuffle: Shuffler)
    ensures var outcome := DebateSpec(puzzle, input, maxRounds, callLlm, shuffle).0;
      var events := DebateSpec(puzzle, input, maxRounds, callLlm, shuffle).1;
      && (outcome.Rejected? <==> !(input.CardList? && |input.cards| >= 2 && LastFacilitator(input.cards).Some?))
      && (outcome.Rejected? ==> events == [])
      && (outcome.Crashed? <==> !outcome.Rejected? && maxRounds <= 0)
  {
    if input.CardList? {
      match SplitOf(input.cards)
      case TooFewCards =>
      case NoFacilitator =>
      case Ready(fac, participants) =>
        var s := Setup(Batch, puzzle, fac, maxRounds, callLlm, shuffle);
        assert DebateSpec(puzzle, input, maxRounds, callLlm, shuffle) == Played(s, participants);
        PlayedCrashes(s, participants);
    }
  }

  /** A rejected card list is rejected before any call: the answers the models would give do not matter. */
  lemma RejectionMakesNoCall(puzzle: string, input: CardsInput, maxRounds: int, f: CallLlmFn, g: CallLlmFn, shuffle: Shuffler)
    requires DebateSpec(puzzle, input, maxRounds, f, shuffle).0.Rejected?
    ensures DebateSpec(puzzle, input, maxRounds, f, shuffle) == DebateSpec(puzzle, input, maxRounds, g, shuffle)
  {
  }

  /**
   * Once the cards are accepted, a completed `run_debate` ran between one and
   * `max_rounds` rounds; without a final answer it ran them all and its last
   * push is the "ended" notice.
   */
  lemma PlayedRounds(s: Setup, participants: seq<Card>)
    requires s.mode.Batch?
    ensures var outcome := Played(s, participants).0;
      var events := Played(s, participants).1;
      outcome.Completed? ==>
        && 1 <= outcome.roundsCompleted <= s.maxRounds
        && (outcome.finalAnswer.None? ==>
              && outcome.roundsCompleted == s.maxRounds
              && |events| > 0
              && events[|events| - 1] == PushOf("system", EndedNotice(s.maxRounds), ""))
  {
    var st := Rounds(s, Start(s), participants, 0).0;
    var n := Rounds(s, Start(s), participants, 0).1;
    RoundsGrow(s, Start(s), participants, 0);
    assert Played(s, participants).1 == st.events + (if st.final.None? then [PushOf("system", EndedNotice(s.maxRounds), "")] else []);
  }

  /**
   * A completed `run_debate` with a final answer concluded: the answer is a
   * concluding reply, the facilitator's last record, and the last push is
   * the "concluded" notice.
   */
  lemma PlayedConcludes(s: Setup, participants: seq<Card>)
    requires s.mode.Batch?
    ensures var outcome := Played(s, participants).0;
      var events := Played(s, participants).1;
      outcome.Completed? && outcome.finalAnswer.Some? ==>
        && Concludes(outcome.finalAnswer.value)
        && |outcome.history| > 0
        && var rec := outcome.history[|outcome.history| - 1];
        && rec.Said? && rec.role == "facilitator" && rec.message == outcome.finalAnswer.value
        && |events| > 0
        && events[|events| - 1] == PushOf("system", ConcludedNotice, "")
  {
    PlayedWhenConcluded(s, participants);
    RoundsConclude(s, Start(s), participants, 0);
  }

  /** When the round loop leaves a final answer, `run_debate` returns its state as it stands. */
  lemma PlayedWhenConcluded(s: Setup, participants: seq<Card>)
    requires s.mode.Batch?
    ensures var st := Rounds(s, Start(s), participants, 0).0;
      st.final.Some? ==>
        && Played(s, participants).0 == Completed(Rounds(s, Start(s), participants, 0).1, st.history, st.final, st.transcript)
        && Played(s, participants).1 == st.events
  {
    RoundsGrow(s, Start(s), participants, 0);
  }

  /** The start notice is `run_debate`'s first push once the cards are accepted. */
  lemma PlayedStartsWithNotice(s: Setup, participants: seq<Card>)
    requires s.mode.Batch?
    ensures var events := Played(s, participants).1;
      |events| > 0 && events[0] == PushOf("system", StartNotice(s.puzzle), "")
  {
    RoundsGrow(s, Start(s), participants, 0);
  }

  /**
   * The conversation text of a completed `run_debate` is exactly its
   * history's successful replies, in order, each under its role in capitals.
   */
  lemma PlayedTranscript(s: Setup, participants: seq<Card>)
    requires s.mode.Batch?
    ensures var outcome := Played(s, participants).0;
      outcome.Completed? ==> outcome.transcript == Render(outcome.history)
  {
    RoundsKept(s, Start(s), participants, 0);
  }

  /**
   * With a shuffler that only reorders, the history of a completed
   * `run_debate` holds one record per call: one per participant and one for
   * the facilitator in every round begun.
   */
  lemma PlayedHistoryCount(s: Setup, participants: seq<Card>)
    requires s.mode.Batch?
    requires IsShuffle(s.shuffle)
    ensures var outcome := Played(s, participants).0;
      outcome.Completed? ==> |outcome.history| == outcome.roundsCompleted * (|participants| + 1)
  {
    var n := Rounds(s, Start(s), participants, 0).1;
    ShuffleKeepsCount(s.shuffle);
    RoundsKept(s, Start(s), participants, 0);
    RoundsCallCount(s, Start(s), participants, 0);
    BatchesIsProduct(n, |participants| + 1);
  }

  /**
   * `run_debate` on a decoded card list, in the cards' own terms: the
   * conversation text renders the history, and the history holds one record
   * per non-facilitator card and one for the facilitator in every round.
   */
  lemma DebateHistory(puzzle: string, cards: seq<Card>, maxRounds: int, callLlm: CallLlmFn, shuffle: Shuffler)
    requires IsShuffle(shuffle)
    ensures var outcome := DebateSpec(puzzle, CardList(cards), maxRounds, callLlm, shuffle).0;
      outcome.Completed? ==>
        && outcome.transcript == Render(outcome.history)
        && |outcome.history| == outcome.roundsCompleted * (|NonFacilitators(cards)| + 1)
  {
    match SplitOf(cards)
    case TooFewCards =>
    case NoFacilitator =>
    case Ready(fac, participants) =>
      var s := Setup(Batch, puzzle, fac, maxRounds, callLlm, shuffle);
      assert DebateSpec(puzzle, CardList(cards), maxRounds, callLlm, shuffle) == Played(s, participants);
      PlayedTranscript(s, participants);
      PlayedHistoryCount(s, participants);
  }

  /**
   * The history of a completed `run_debate` reads as one block per round
   * begun: the participants in that round's shuffled order, then the
   * facilitator.
   */
  lemma PlayedSpeakers(s: Setup, participants: seq<Card>)
    requires s.mode.Batch?
    ensures var outcome := Played(s, participants).0;
      outcome.Completed? ==> Speakers(outcome.history) == RoundSeats(s, participants, 0, outcome.roundsCompleted)
  {
    RoundsSpeakers(s, Start(s), participants, 0);
  }

  /**
   * With a callback, the streaming copy calls back once per turn in the order
   * the turns are taken: per round the participants in that round's shuffled
   * order, then the facilitator; and when it stops with an answer, the
   * facilitator's concluding reply is the last callback.
   */
  lemma StreamedCallbacks(s: Setup, participants: seq<Card>)
    requires s.mode == Streaming(true)
    ensures var last := Rounds(s, Start(s), participants, 0).0;
      && CallbackModels(last.events) == RoundModels(s, participants, 0, Rounds(s, Start(s), participants, 0).1)
      && (last.final.Some? ==>
            |last.events| > 0
            && last.events[|last.events| - 1] == Callback("facilitator", last.final.value, Field(s.facilitator.model, "unknown")))
  {
    RoundsCallbacks(s, Start(s), participants, 0);
    RoundsConcludeStreaming(s, Start(s), participants, 0);
  }

  /**
   * `run_debate` on a decoded card list stops at the first concluding reply of
   * the facilitator: without a final answer no facilitator reply concludes;
   * with one, the answer is the facilitator's last reply and none of its
   * earlier replies concludes.
   */
  lemma DebateFirstAnswer(puzzle: string, cards: seq<Card>, maxRounds: int, callLlm: CallLlmFn, shuffle: Shuffler)
    requires IsShuffle(shuffle)
    ensures var outcome := DebateSpec(puzzle, CardList(cards), maxRounds, callLlm, shuffle).0;
      outcome.Completed? ==>
        var replies := FacilitatorReplies(outcome.history);
        && (outcome.finalAnswer.None? ==> Undecided(replies))
        && (outcome.finalAnswer.Some? ==>
              |replies| > 0 && replies[|replies| - 1] == outcome.finalAnswer.value && Undecided(replies[..|replies| - 1]))
  {
    match SplitOf(cards)
    case TooFewCards =>
    case NoFacilitator =>
    case Ready(fac, participants) =>
      var s := Setup(Batch, puzzle, fac, maxRounds, callLlm, shuffle);
      assert DebateSpec(puzzle, CardList(cards), maxRounds, callLlm, shuffle) == Played(s, participants);
      NonFacilitatorsMembers(cards);
      PlayedFirstAnswer(s, participants);
  }

  /** Once the cards are accepted, `run_debate`'s answer is the facilitator's first concluding reply. */
  lemma PlayedFirstAnswer(s: Setup, participants: seq<Card>)
    requires s.mode.Batch?
    requires IsShuffle(s.shuffle)
    requires forall c :: c in participants ==> !IsFacilitator(c)
    ensures var outcome := Played(s, participants).0;
      outcome.Completed? ==>
        var replies := FacilitatorReplies(outcome.history);
        && (outcome.finalAnswer.None? ==> Undecided(replies))
        && (outcome.finalAnswer.Some? ==>
              |replies| > 0 && replies[|replies| - 1] == outcome.finalAnswer.value && Undecided(replies[..|replies| - 1]))
  {
    var start := Start(s);
    assert start.history == [] && start.final.None?;
    assert Undecided(Replies(s.mode, start));
    RoundsReplies(s, start, participants, 0);
    var result := Rounds(s, start, participants, 0);
    var outcome := Played(s, participants).0;
    if outcome.Completed? {
      assert outcome.history == result.0.history && outcome.finalAnswer == result.0.final;
    }
  }

  /**
   * `run_debate_streaming` rejects exactly fewer than two cards and a list
   * without a facilitator; it reports only through the callback, so nothing
   * at all without one; a final answer is a concluding reply; and, for a
   * shuffle that only reorders, as the callbacks show, it stops at the
   * facilitator's first concluding reply:
   * without an answer no facilitator callback concludes, and with one the
   * answer is the last facilitator callback and none before it concludes.
   */
  lemma StreamingLaws(puzzle: string, cards: seq<Card>, maxRounds: int, hasCallback: bool,
                      callLlm: CallLlmFn, shuffle: Shuffler)
    ensures var outcome := StreamingSpec(puzzle, cards, maxRounds, hasCallback, callLlm, shuffle).0;
      var events := StreamingSpec(puzzle, cards, maxRounds, hasCallback, callLlm, shuffle).1;
      && (outcome.StreamRejected? <==> |cards| < 2 || LastFacilitator(cards).None?)
      && (outcome.StreamRejected? ==> events == [])
      && (!hasCallback ==> events == [])
      && (forall i :: 0 <= i < |events| ==> events[i].Callback?)
      && (outcome.StreamCompleted? && outcome.finalAnswer.Some? ==> Concludes(outcome.finalAnswer.value))
      && (hasCallback && IsShuffle(shuffle) && outcome.StreamCompleted? ==>
            var replies := FacilitatorCallbacks(events);
            && (outcome.finalAnswer.None? ==> Undecided(replies))
            && (outcome.finalAnswer.Some? ==>
                  |replies| > 0 && replies[|replies| - 1] == outcome.finalAnswer.value && Undecided(replies[..|replies| - 1])))
  {
    match SplitOf(cards)
    case TooFewCards =>
    case NoFacilitator =>
    case Ready(fac, participants) =>
      var s := Setup(Streaming(hasCallback), puzzle, fac, maxRounds, callLlm, shuffle);
      assert StreamKept(hasCallback, Start(s));
      RoundsStreaming(s, Start(s), participants, 0);
      RoundsGrow(s, Start(s), participants, 0);
      if hasCallback && IsShuffle(shuffle) {
        NonFacilitatorsMembers(cards);
        RoundsReplies(s, Start(s), participants, 0);
      }
  }

  /**
   * With a callback, `run_debate_streaming` stops right after the
   * facilitator's concluding reply: when it returns an answer, the last
   * callback is that reply, under the facilitator's model.
   */
  lemma StreamingStops(puzzle: string, cards: seq<Card>, maxRounds: int, callLlm: CallLlmFn, shuffle: Shuffler)
    ensures var outcome := StreamingSpec(puzzle, cards, maxRounds, true, callLlm, shuffle).0;
      var events := StreamingSpec(puzzle, cards, maxRounds, true, callLlm, shuffle).1;
      outcome.StreamCompleted? && outcome.finalAnswer.Some? ==>
        && LastFacilitator(cards).Some?
        && |events| > 0
        && events[|events| - 1]
           == Callback("facilitator", outcome.finalAnswer.value, Field(LastFacilitator(cards).value.model, "unknown"))
  {
    match SplitOf(cards)
    case TooFewCards =>
    case NoFacilitator =>
    case Ready(fac, participants) =>
      var s := Setup(Streaming(true), puzzle, fac, maxRounds, callLlm, shuffle);
      var last := Rounds(s, Start(s), participants, 0).0;
      assert StreamingSpec(puzzle, cards, maxRounds, true, callLlm, shuffle) == (StreamCompleted(last.final), last.events);
      assert LastFacilitator(cards) == Some(fac);
      RoundsConcludeStreaming(s, Start(s), participants, 0);
      assert last.final.Some? ==> EndsWithCallback(fac, last);
  }

  /**
   * A card whose model is the alias "gpt" reaches the OpenAI adapter in
   * `run_debate`, which normalises aliases first, but is refused by
   * `call_llm` in the streaming copy, which does not.
   */
  lemma GptCardServedOnlyInBatch(llm: Oracle, s: Setup, st: Progress, card: Card)
    requires s.callLlm == CallLlmOf(llm)
    requires card.model == Some("gpt")
    ensures ParticipantCall(s, st, card).Refused? <==> s.mode.Streaming?
  {
    ParticipantCallRefused(llm, s, st, card);
    GptIsOnlyAnAlias();
    if s.mode.Batch? {
      assert ProviderOf(s.mode, card.model) == NormaliseAlias("gpt");
    } else {
      assert ProviderOf(s.mode, card.model) == "gpt";
    }
  }

  /** With the real `call_llm`, a participant's call is refused iff its provider is unknown. */
  lemma ParticipantCallRefused(llm: Oracle, s: Setup, st: Progress, card: Card)
    requires s.callLlm == CallLlmOf(llm)
    ensures ParticipantCall(s, st, card).Refused? <==> Canonical(ProviderOf(s.mode, card.model)) !in KnownProviders
  {
    var provider := ProviderOf(s.mode, card.model);
    var role, personality, expertise := Field(card.role, "reasoner"), Field(card.personality, "analytical"), Field(card.expertise, "general");
    assert ParticipantCall(s, st, card)
           == CallLlmSpec(provider, role, personality, expertise, s.puzzle, st.transcript, TurnPrompt, llm, st.calls);
    CallLlmOutcome(provider, role, personality, expertise, s.puzzle, st.transcript, TurnPrompt, llm, st.calls);
  }

}
