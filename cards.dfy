/**
 * Participant cards and the facilitator split that `run_debate` and
 * `run_debate_streaming` perform before any model is called.
 */
module Cards {
  import opened Wrappers
  import opened Text

  /**
   * One card as the engine receives it: a JSON object whose four keys may each
   * be missing (`None`). The engine reads every key through `dict.get` with a
   * default that depends on the call site.
   */
  datatype Card = Card(model: Option<string>, expertise: Option<string>, personality: Option<string>, role: Option<string>)

  /** `card.get(key, default)` for one of the card's keys. */
  function Field(value: Option<string>, default: string): string {
    match value
    case Some(v) => v
    case None => default
  }

  /** The split test: `card.get("role", "").lower() == "facilitator"`. */
  predicate IsFacilitator(card: Card) {
    Lower(Field(card.role, "")) == "facilitator"
  }

  /** A card whose role is exactly "facilitator" passes the split test. */
  lemma FacilitatorRolePasses(card: Card)
    ensures card.role == Some("facilitator") ==> IsFacilitator(card)
  {
    LowerOfLowerCase("facilitator");
  }

  /** The facilitator the split keeps: the last facilitator card of the list. */
  function LastFacilitator(cards: seq<Card>): Option<Card>
    decreases |cards|
  {
    if cards == [] then None
    else if IsFacilitator(cards[|cards| - 1]) then Some(cards[|cards| - 1])
    else LastFacilitator(cards[..|cards| - 1])
  }

  /** The participants the split keeps: the non-facilitator cards, in input order. */
  function NonFacilitators(cards: seq<Card>): seq<Card>
    decreases |cards|
  {
    if cards == [] then []
    else NonFacilitators(cards[..|cards| - 1])
         + (if IsFacilitator(cards[|cards| - 1]) then [] else [cards[|cards| - 1]])
  }

  /**
   * The loop of `run_debate` (and of `run_debate_streaming`) that walks the
   * cards once: a facilitator card replaces the one found so far, any other
   * card is appended to the participants.
   */
  method SplitCards(cards: seq<Card>) returns (facilitator: Option<Card>, participants: seq<Card>)
    ensures facilitator == LastFacilitator(cards)
    ensures participants == NonFacilitators(cards)
  {
    facilitator := None;
    participants := [];
    for i := 0 to |cards|
      invariant facilitator == LastFacilitator(cards[..i])
      invariant participants == NonFacilitators(cards[..i])
    {
      assert cards[..i + 1][..i] == cards[..i];
      var card := cards[i];
      if Lower(Field(card.role, "")) == "facilitator" {
        facilitator := Some(card);
      } else {
        participants := participants + [card];
      }
    }
    assert cards[..|cards|] == cards;
  }

  /**
   * A facilitator is found exactly when some card is one, and the one kept is
   * a facilitator card that no later card supersedes.
   */
  lemma {:induction false} LastFacilitatorIsLast(cards: seq<Card>)
    ensures LastFacilitator(cards).Some? <==> exists i :: 0 <= i < |cards| && IsFacilitator(cards[i])
    ensures LastFacilitator(cards).Some? ==>
              exists i :: 0 <= i < |cards| && cards[i] == LastFacilitator(cards).value && IsFacilitator(cards[i])
                          && forall j :: i < j < |cards| ==> !IsFacilitator(cards[j])
    decreases |cards|
  {
    if cards != [] {
      var n := |cards| - 1;
      var front := cards[..n];
      LastFacilitatorIsLast(front);
      if !IsFacilitator(cards[n]) {
        assert forall i :: 0 <= i < n ==> front[i] == cards[i];
        if LastFacilitator(cards).Some? {
          var i :| 0 <= i < n && front[i] == LastFacilitator(front).value && IsFacilitator(front[i])
                   && forall j :: i < j < n ==> !IsFacilitator(front[j]);
          assert cards[i] == LastFacilitator(cards).value && IsFacilitator(cards[i]);
          assert forall j :: i < j < |cards| ==> !IsFacilitator(cards[j]);
        }
      }
    }
  }

  /**
   * The participants are exactly the cards that are not facilitators: every
   * facilitator card, the kept one included, lands outside the list.
   */
  lemma {:induction false} NonFacilitatorsMembers(cards: seq<Card>)
    ensures forall c :: c in NonFacilitators(cards) <==> c in cards && !IsFacilitator(c)
    decreases |cards|
  {
    if cards != [] {
      var n := |cards| - 1;
      NonFacilitatorsMembers(cards[..n]);
      assert cards == cards[..n] + [cards[n]];
    }
  }

  /**
   * Filtering preserves input order: the participants of a concatenation are
   * the participants of each part, one after the other.
   */
  lemma {:induction false} NonFacilitatorsAppend(a: seq<Card>, b: seq<Card>)
    ensures NonFacilitators(a + b) == NonFacilitators(a) + NonFacilitators(b)
    decreases |b|
  {
    if b != [] {
      var n := |b| - 1;
      NonFacilitatorsAppend(a, b[..n]);
      assert (a + b)[..|a + b| - 1] == a + b[..n];
    } else {
      assert a + b == a;
    }
  }

  /** Every card is kept either as a participant or is a facilitator card. */
  lemma {:induction false} NonFacilitatorsLength(cards: seq<Card>)
    ensures |NonFacilitators(cards)| <= |cards|
    ensures |NonFacilitators(cards)| == |cards| <==> LastFacilitator(cards).None?
    decreases |cards|
  {
    if cards != [] {
      NonFacilitatorsLength(cards[..|cards| - 1]);
    }
  }

}
