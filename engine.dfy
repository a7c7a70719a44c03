/**
 * The two debate loops of `src/debate_tools.py` as they run: `run_debate`,
 * which pushes every message to the front end and keeps a history, and
 * `run_debate_streaming`, which reports through an optional callback. Each
 * is proved to produce what its specification function in `Debate` says.
 */
module Engine {
  import opened Wrappers
  import opened Text
  import opened Cards
  import opened Frontend
  import opened Prompts
  import opened Providers
  import opened Debate

  /**
   * `run_debate(puzzle, cards, max_rounds)`: the returned dictionary (or the
   * crash of a debate without rounds) and the pushes made along the way.
   * `callLlm` is the `call_llm` it calls (`CallLlmOf(llm)` for the real one);
   * the pauses between calls are not modelled.
   */
  method RunDebate(puzzle: string, input: CardsInput, maxRounds: int, callLlm: CallLlmFn, shuffle: Shuffler)
    returns (outcome: DebateOutcome, events: seq<Event>)
    ensures (outcome, events) == DebateSpec(puzzle, input, maxRounds, callLlm, shuffle)
  {
    events := [];
    if input.Undecodable? {
      return Rejected("Invalid cards JSON: " + input.reason), events;
    }
    var cardsList := input.cards;
    if |cardsList| < 2 {
      return Rejected("Need at least 2 cards to run a debate"), events;
    }
    var facilitator, participants := SplitCards(cardsList);
    if facilitator.None? {
      return Rejected(NoFacilitatorMessage), events;
    }
    var fac := facilitator.value;
    assert SplitOf(cardsList) == Ready(fac, participants);
    var s := Setup(Batch, puzzle, fac, maxRounds, callLlm, shuffle);
    outcome, events := Play(s, participants);
  }

  /** `run_debate` once the cards are accepted (lines 301-435). */
  method Play(s: Setup, participants: seq<Card>) returns (outcome: DebateOutcome, events: seq<Event>)
    requires s.mode.Batch?
    ensures (outcome, events) == Played(s, participants)
  {
    var calls, debateHistory, conversationText, finalAnswer, begun;
    calls, debateHistory, conversationText, events, finalAnswer, begun := PlayRounds(s, participants);
    ghost var st := Progress(calls, debateHistory, conversationText, events, finalAnswer);
    assert Rounds(s, Start(s), participants, 0).0 == st;
    assert Rounds(s, Start(s), participants, 0).1 == begun;
    assert Played(s, participants).1 == st.events + (if st.final.None? then [PushOf("system", EndedNotice(s.maxRounds), "")] else []);
    if finalAnswer.None? {
      events := events + [PushOf("system", EndedNotice(s.maxRounds), "")];
    }
    assert Played(s, participants).1 == events;
    if begun == 0 {
      outcome := Crashed;  // `round_num` was never bound
    } else {
      outcome := Completed(begun, debateHistory, finalAnswer, conversationText);
    }
  }

  /**
   * `run_debate` from the start notice to the end of the round loop (lines
   * 301-425): the state it leaves, and `begun`, which is `round_num + 1` once
   * the loop has bound `round_num` and 0 if it never did.
   */
  method PlayRounds(s: Setup, participants: seq<Card>)
    returns (calls: nat, debateHistory: seq<Record>, conversationText: string, events: seq<Event>,
             finalAnswer: Option<string>, begun: nat)
    requires s.mode.Batch?
    ensures Rounds(s, Start(s), participants, 0)
            == (Progress(calls, debateHistory, conversationText, events, finalAnswer), begun)
  {
    var order := participants;
    events := [PushOf("system", StartNotice(s.puzzle), "")];
    debateHistory := [];
    conversationText := "";
    finalAnswer := None;
    calls := 0;
    begun := 0;
    ghost var total := Rounds(s, Start(s), participants, 0);
    var r: nat := 0;
    while r < s.maxRounds
      invariant finalAnswer.None?
      invariant begun == r
      invariant Rounds(s, Progress(calls, debateHistory, conversationText, events, finalAnswer), order, r) == total
      decreases s.maxRounds - r
    {
      ghost var before := Progress(calls, debateHistory, conversationText, events, finalAnswer);
      ghost var previous := order;
      begun := r + 1;
      order, calls, debateHistory, conversationText, events, finalAnswer :=
        PlayRound(s, r, order, calls, debateHistory, conversationText, events);
      ghost var next := Progress(calls, debateHistory, conversationText, events, finalAnswer);
      assert Rounds(s, before, previous, r) == (if next.final.Some? then (next, r + 1) else Rounds(s, next, order, r + 1));
      if finalAnswer.Some? {
        assert total == (next, r + 1);
        break;
      }
      r := r + 1;
    }
  }

  /**
   * `run_debate_streaming(puzzle, cards, max_rounds, on_message)` on a list of
   * cards, with `hasCallback` telling whether `on_message` was given: the
   * returned dictionary and the callback calls made along the way.
   */
  method RunDebateStreaming(puzzle: string, cards: seq<Card>, maxRounds: int, hasCallback: bool,
                            callLlm: CallLlmFn, shuffle: Shuffler)
    returns (outcome: StreamOutcome, events: seq<Event>)
    ensures (outcome, events) == StreamingSpec(puzzle, cards, maxRounds, hasCallback, callLlm, shuffle)
  {
    events := [];
    if |cards| < 2 {
      return StreamRejected("Need at least 2 cards"), events;
    }
    var facilitator, participants := SplitCards(cards);
    if facilitator.None? {
      return StreamRejected("No facilitator found"), events;
    }
    var fac := facilitator.value;
    var s := Setup(Streaming(hasCallback), puzzle, fac, maxRounds, callLlm, shuffle);
    var conversationText := "";
    var finalAnswer: Option<string> := None;
    var calls: nat := 0;
    ghost var total := Rounds(s, Start(s), participants, 0);
    var r: nat := 0;
    while r < maxRounds
      invariant finalAnswer.None?
      invariant Rounds(s, Progress(calls, [], conversationText, events, finalAnswer), participants, r) == total
      decreases maxRounds - r
    {
      ghost var before := Progress(calls, [], conversationText, events, finalAnswer);
      ghost var previous := participants;
      participants, calls, conversationText, events, finalAnswer :=
        StreamRound(s, r, participants, calls, conversationText, events);
      ghost var next := Progress(calls, [], conversationText, events, finalAnswer);
      assert Rounds(s, before, previous, r) == (if next.final.Some? then (next, r + 1) else Rounds(s, next, participants, r + 1));
      if finalAnswer.Some? {
        break;
      }
      r := r + 1;
    }
    outcome := StreamCompleted(finalAnswer);
  }

  /** One round of `run_debate` (lines 312-425): the notice, the shuffle, every participant, then the facilitator. */
  method PlayRound(s: Setup, r: nat, participants: seq<Card>, calls: nat, debateHistory: seq<Record>, conversationText: string, events: seq<Event>)
    returns (order: seq<Card>, calls': nat, debateHistory': seq<Record>, conversationText': string, events': seq<Event>, finalAnswer: Option<string>)
    requires s.mode.Batch?
    ensures order == s.shuffle(r, participants)
    ensures Progress(calls', debateHistory', conversationText', events', finalAnswer)
            == Round(s, Progress(calls, debateHistory, conversationText, events, None), r, order)
  {
    ghost var before := Progress(calls, debateHistory, conversationText, events, None);
    calls', debateHistory', conversationText' := calls, debateHistory, conversationText;
    events' := events + [PushOf("system", RoundNotice(r, s.maxRounds), "")];
    order := s.shuffle(r, participants);
    ghost var atStart := Progress(calls', debateHistory', conversationText', events', None);
    assert atStart == OpenRound(s, before, r);
    for i := 0 to |order|
      invariant Progress(calls', debateHistory', conversationText', events', None) == SpeakAll(s, atStart, order[..i])
    {
      assert order[..i + 1][..i] == order[..i];
      calls', debateHistory', conversationText', events' :=
        ParticipantSpeaks(s, order[i], calls', debateHistory', conversationText', events');
    }
    assert order[..|order|] == order;
    calls', debateHistory', conversationText', events', finalAnswer :=
      FacilitatorSpeaks(s, calls', debateHistory', conversationText', events');
  }

  /** One round of `run_debate_streaming` (lines 485-540): the shuffle, every participant, then the facilitator. */
  method StreamRound(s: Setup, r: nat, participants: seq<Card>, calls: nat, conversationText: string, events: seq<Event>)
    returns (order: seq<Card>, calls': nat, conversationText': string, events': seq<Event>, finalAnswer: Option<string>)
    requires s.mode.Streaming?
    ensures order == s.shuffle(r, participants)
    ensures Progress(calls', [], conversationText', events', finalAnswer)
            == Round(s, Progress(calls, [], conversationText, events, None), r, order)
  {
    calls', conversationText', events' := calls, conversationText, events;
    order := s.shuffle(r, participants);
    ghost var atStart := Progress(calls', [], conversationText', events', None);
    for i := 0 to |order|
      invariant Progress(calls', [], conversationText', events', None) == SpeakAll(s, atStart, order[..i])
    {
      assert order[..i + 1][..i] == order[..i];
      calls', conversationText', events' := ParticipantStreams(s, order[i], calls', conversationText', events');
    }
    assert order[..|order|] == order;
    calls', conversationText', events', finalAnswer := FacilitatorStreams(s, calls', conversationText', events');
  }

  /** One participant's turn in `run_debate` (lines 315-368). */
  method ParticipantSpeaks(s: Setup, card: Card, calls: nat, debateHistory: seq<Record>, conversationText: string, events: seq<Event>)
    returns (calls': nat, debateHistory': seq<Record>, conversationText': string, events': seq<Event>)
    requires s.mode.Batch?
    ensures Progress(calls', debateHistory', conversationText', events', None)
            == ParticipantTurn(s, Progress(calls, debateHistory, conversationText, events, None), card)
  {
    var provider := NormaliseAlias(Field(card.model, "openai"));
    var result := s.callLlm(calls, CallArgs(provider, Field(card.role, "reasoner"), Field(card.personality, "analytical"),
                                            Field(card.expertise, "general"), s.puzzle, conversationText, TurnPrompt));
    if result.Answered? {
      var response := result.response;
      var role := Field(card.role, "unknown");
      var modelName := Field(card.model, "unknown");
      events' := events + [PushOf(role, response, modelName)];
      debateHistory' := debateHistory + [Said(role, modelName, Field(card.personality, ""), Field(card.expertise, ""), response)];
      conversationText' := conversationText + TranscriptLine(Upper(role), response);
    } else {
      var errorMsg := result.message;
      events' := events + [PushOf("error", ErrorNotice(Field(card.model, "unknown"), errorMsg), "")];
      debateHistory' := debateHistory + [Failed(Field(card.role, "unknown"), Field(card.model, "unknown"), errorMsg)];
      conversationText' := conversationText;
    }
    calls' := calls + 1;
  }

  /** The facilitator's turn in `run_debate` (lines 370-422); a final answer ends the debate. */
  method FacilitatorSpeaks(s: Setup, calls: nat, debateHistory: seq<Record>, conversationText: string, events: seq<Event>)
    returns (calls': nat, debateHistory': seq<Record>, conversationText': string, events': seq<Event>, finalAnswer: Option<string>)
    requires s.mode.Batch?
    ensures Progress(calls', debateHistory', conversationText', events', finalAnswer)
            == FacilitatorTurn(s, Progress(calls, debateHistory, conversationText, events, None))
  {
    var facilitator := s.facilitator;
    var facProvider := NormaliseAlias(Field(facilitator.model, "openai"));
    var facResult := s.callLlm(calls, CallArgs(facProvider, "facilitator", Field(facilitator.personality, "decisive"),
                                               Field(facilitator.expertise, "leadership"), s.puzzle, conversationText, TurnPrompt));
    calls' := calls + 1;
    finalAnswer := None;
    if facResult.Answered? {
      var facResponse := facResult.response;
      var facModel := Field(facilitator.model, "unknown");
      events' := events + [PushOf("facilitator", facResponse, facModel)];
      debateHistory' := debateHistory + [Said("facilitator", facModel, Field(facilitator.personality, ""), Field(facilitator.expertise, ""), facResponse)];
      conversationText' := conversationText + TranscriptLine("FACILITATOR", facResponse);
      if Contains(Lower(facResponse), Phrase) {
        finalAnswer := Some(facResponse);
        events' := events' + [PushOf("system", ConcludedNotice, "")];
      }
    } else {
      var errorMsg := facResult.message;
      events' := events + [PushOf("error", ErrorNotice(Field(facilitator.model, "unknown"), errorMsg), "")];
      debateHistory' := debateHistory + [Failed("facilitator", Field(facilitator.model, "unknown"), errorMsg)];
      conversationText' := conversationText;
    }
  }

  /** One participant's turn in `run_debate_streaming` (lines 485-512): no alias normalisation, no history. */
  method ParticipantStreams(s: Setup, card: Card, calls: nat, conversationText: string, events: seq<Event>)
    returns (calls': nat, conversationText': string, events': seq<Event>)
    requires s.mode.Streaming?
    ensures Progress(calls', [], conversationText', events', None)
            == ParticipantTurn(s, Progress(calls, [], conversationText, events, None), card)
  {
    var provider := Field(card.model, "openai");
    var result := s.callLlm(calls, CallArgs(provider, Field(card.role, "reasoner"), Field(card.personality, "analytical"),
                                            Field(card.expertise, "general"), s.puzzle, conversationText, TurnPrompt));
    events' := events;
    conversationText' := conversationText;
    if result.Answered? {
      var response := result.response;
      var role := Field(card.role, "unknown");
      var model := Field(card.model, "unknown");
      if s.mode.hasCallback {
        events' := events + [Callback(role, response, model)];
      }
      conversationText' := conversationText + TranscriptLine(Upper(role), response);
    } else {
      if s.mode.hasCallback {
        events' := events + [Callback("error", result.message, Field(card.model, "unknown"))];
      }
    }
    calls' := calls + 1;
  }

  /** The facilitator's turn in `run_debate_streaming` (lines 514-539). */
  method FacilitatorStreams(s: Setup, calls: nat, conversationText: string, events: seq<Event>)
    returns (calls': nat, conversationText': string, events': seq<Event>, finalAnswer: Option<string>)
    requires s.mode.Streaming?
    ensures Progress(calls', [], conversationText', events', finalAnswer)
            == FacilitatorTurn(s, Progress(calls, [], conversationText, events, None))
  {
    var facilitator := s.facilitator;
    var facResult := s.callLlm(calls, CallArgs(Field(facilitator.model, "openai"), "facilitator", Field(facilitator.personality, "decisive"),
                                               Field(facilitator.expertise, "leadership"), s.puzzle, conversationText, TurnPrompt));
    calls' := calls + 1;
    events' := events;
    conversationText' := conversationText;
    finalAnswer := None;
    if facResult.Answered? {
      var facResponse := facResult.response;
      if s.mode.hasCallback {
        events' := events + [Callback("facilitator", facResponse, Field(facilitator.model, "unknown"))];
      }
      conversationText' := conversationText + TranscriptLine("FACILITATOR", facResponse);
      if Contains(Lower(facResponse), Phrase) {
        finalAnswer := Some(facResponse);
      }
    } else {
      if s.mode.hasCallback {
        events' := events + [Callback("error", facResult.message, Field(facilitator.model, "unknown"))];
      }
    }
  }

}
