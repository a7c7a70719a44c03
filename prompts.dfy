/**
 * Prompt construction: the system prompt of a participant, the message list
 * `call_llm` sends, and the flattening of that list into the single prompt
 * string the Gemini adapter sends.
 */
module Prompts {
  import opened Text

  /** `ROLE_INSTRUCTIONS`. */
  const RoleInstructions: map<string, string> := map[
    "critic" := CriticInstruction,
    "facilitator" := FacilitatorInstruction,
    "reasoner" := ReasonerInstruction,
    "stateTracker" := StateTrackerInstruction
  ]

  const CriticInstruction :=
    "Be critical and analytical of your "
    + "teammates' contributions. Your goal is "
    + "to achieve the team's objective of "
    + "solving the puzzle by pushing your team "
    + "to think of new ideas and challenging "
    + "current ones."

  const ReasonerInstruction :=
    "Provide input on what you think the "
    + "solution is. In all situations, "
    + "contribute the most logical ideas that "
    + "will help your team solve the puzzle."

  const StateTrackerInstruction :=
    "Your job is not to reason, but to keep "
    + "your teammates in check. Pay close "
    + "attention to everything that's being "
    + "discussed to make sure none of your "
    + "teammates are fabricating facts. If "
    + "that happens, remind them of the facts "
    + "to guide them back on track."

  /** The facilitator's instruction, which quotes the termination phrase. */
  const FacilitatorInstruction := FacilitatorBefore + "That is the answer" + FacilitatorAfter

  const FacilitatorBefore :=
    "You are making the final decision - the "
    + "solution that will solve the puzzle. "
    + "That is your main focus. Listen to your "
    + "teammates, but be decisive. VERY "
    + "IMPORTANT: whenever you speak, end with "
    + "one of the following: 'We need more "
    + "discussion' or '"

  const FacilitatorAfter :=
    ".'. This is EXTREMELY important. "
    + "Whatever you do, do not end with "
    + "something other than this."

  /** The instruction given to a role the table does not list. */
  const FallbackInstruction := "Participate in the discussion constructively."

  function RoleInstruction(role: string): string {
    if role in RoleInstructions then RoleInstructions[role] else FallbackInstruction
  }

  /** The fixed text before the role line of every system prompt. */
  const PromptOpening :=
    "You are part of an elite reasoning team "
    + "whose objective is to solve "
    + "puzzles.\nYou will all take turns adding "
    + "to the discussion. Work together to "
    + "solve the problem. Once everyone has "
    + "gone,\nthe facilitator will decide if "
    + "there should be another round of "
    + "discussion.\n"

  /** The fixed text after the role line of every system prompt. */
  const PromptClosing :=
    "\nDuring discussion, act as someone with "
    + "your personality and expertise would "
    + "act. Be super concise in your speech. "
    + "Try your best to go under 600 "
    + "chars.\nEverytime you speak, let "
    + "everyone know your role in the "
    + "following format : 'I am the <role>', "
    + "where role is one of the following: "
    + "state tracker, facilitator, reasoner, "
    + "or critic. And remember, don't break "
    + "character.\nFollow the rules, work "
    + "together, and support the facilitator "
    + "until they can deliver the "
    + "solution.\nBefore you are told to speak, "
    + "you will be given the conversation that "
    + "is currently unfolding. Don't "
    + "hallucinate please."

  /** The text before the persona's personality in a role line. */
  const PersonalityLead := " Your personality is "

  /** The text between the persona's personality and its expertise. */
  const ExpertiseLead := ". Your expertise is "

  /** Where each of seven concatenated parts occurs in the whole. */
  lemma LayoutOfParts(a: string, b: string, c: string, d: string, e: string, f: string, g: string)
    ensures var s := a + b + c + d + e + f + g;
      && OccursAt(s, a, 0)
      && OccursAt(s, b, |a|)
      && OccursAt(s, c, |a| + |b|)
      && OccursAt(s, d, |a| + |b| + |c|)
      && OccursAt(s, e, |a| + |b| + |c| + |d|)
      && OccursAt(s, f, |a| + |b| + |c| + |d| + |e|)
      && |s| == |a| + |b| + |c| + |d| + |e| + |f| + |g|
  {
    var s := a + b + c + d + e + f + g;
    assert s[..|a|] == a;
    assert s[|a|..|a| + |b|] == b;
    assert s[|a| + |b|..|a| + |b| + |c|] == c;
    assert s[|a| + |b| + |c|..|a| + |b| + |c| + |d|] == d;
    assert s[|a| + |b| + |c| + |d|..|a| + |b| + |c| + |d| + |e|] == e;
    assert s[|a| + |b| + |c| + |d| + |e|..|a| + |b| + |c| + |d| + |e| + |f|] == f;
  }

  /** The role line of a system prompt: the role, its instruction and the persona (`RoleLineOpens`, `RoleLinePersona`). */
  function RoleLine(role: string, personality: string, expertise: string): string {
    "Your role is " + role + ". " + RoleInstruction(role) + PersonalityLead + personality + ExpertiseLead + expertise + "."
  }

  /**
   * A role line opens with `Your role is <role>. ` followed by the table's
   * instruction for the role (the fallback for a role the table does not list).
   */
  lemma RoleLineOpens(role: string, personality: string, expertise: string)
    ensures var line := RoleLine(role, personality, expertise);
      && OccursAt(line, "Your role is " + role + ". ", 0)
      && OccursAt(line, RoleInstruction(role), |"Your role is "| + |role| + 2)
  {
    var lead := "Your role is " + role + ". ";
    assert |lead| == |"Your role is "| + |role| + 2;
    LayoutOfParts(lead, RoleInstruction(role), PersonalityLead, personality, ExpertiseLead, expertise, ".");
  }

  /**
   * After the instruction a role line carries the persona: the personality
   * and the expertise inserted as given, each after its fixed lead, and a
   * closing full stop.
   */
  lemma RoleLinePersona(role: string, personality: string, expertise: string)
    ensures var line := RoleLine(role, personality, expertise);
      var personalityAt := |"Your role is "| + |role| + 2 + |RoleInstruction(role)| + |PersonalityLead|;
      var expertiseAt := personalityAt + |personality| + |ExpertiseLead|;
      && OccursAt(line, PersonalityLead, personalityAt - |PersonalityLead|)
      && OccursAt(line, personality, personalityAt)
      && OccursAt(line, ExpertiseLead, personalityAt + |personality|)
      && OccursAt(line, expertise, expertiseAt)
      && |line| == expertiseAt + |expertise| + 1 && line[|line| - 1] == '.'
  {
    var lead := "Your role is " + role + ". ";
    assert |lead| == |"Your role is "| + |role| + 2;
    LayoutOfParts(lead, RoleInstruction(role), PersonalityLead, personality, ExpertiseLead, expertise, ".");
  }

  /**
   * `_build_system_prompt(role, personality, expertise)`: the fixed opening,
   * then the role line with the table's instruction for the role (the
   * fallback for a role the table does not list), then the fixed closing
   * (`SystemPromptCloses`).
   */
  function SystemPrompt(role: string, personality: string, expertise: string): (p: string)
    ensures |p| == |PromptOpening| + |RoleLine(role, personality, expertise)| + |PromptClosing|
    ensures OccursAt(p, PromptOpening, 0)
    ensures OccursAt(p, RoleLine(role, personality, expertise), |PromptOpening|)
  {
    var line := RoleLine(role, personality, expertise);
    OccursAtStart(PromptOpening, line, PromptClosing);
    OccursBetween(PromptOpening, line, PromptClosing);
    PromptOpening + line + PromptClosing
  }

  /** Every system prompt ends with the fixed closing, right after the role line. */
  lemma SystemPromptCloses(role: string, personality: string, expertise: string)
    ensures SystemPrompt(role, personality, expertise)[|PromptOpening| + |RoleLine(role, personality, expertise)|..]
            == PromptClosing
  {
    var line := RoleLine(role, personality, expertise);
    assert (PromptOpening + line + PromptClosing)[|PromptOpening| + |line|..] == PromptClosing;
  }

  /** The termination phrase the engine looks for in the facilitator's lower-cased reply. */
  const Phrase := "that is the answer"

  /** The facilitator's instruction quotes "That is the answer", which lower-cases to the phrase. */
  lemma FacilitatorInstructionHasPhrase()
    ensures Contains(Lower(RoleInstruction("facilitator")), Phrase)
  {
    var quoted := "That is the answer";
    assert Lower(quoted) == Phrase;
    assert RoleInstruction("facilitator") == FacilitatorBefore + quoted + FacilitatorAfter;
    LowerAppend(FacilitatorBefore + quoted, FacilitatorAfter);
    LowerAppend(FacilitatorBefore, quoted);
    ContainsInMiddle(Lower(FacilitatorBefore), Phrase, Lower(FacilitatorAfter), Phrase);
  }

  /**
   * The facilitator is told to finish with the termination phrase: every
   * system prompt the facilitator receives carries its instruction, which
   * contains the phrase the engine looks for once lower-cased.
   */
  lemma FacilitatorIsToldThePhrase(personality: string, expertise: string)
    ensures Contains(Lower(SystemPrompt("facilitator", personality, expertise)), Phrase)
  {
    var instruction := RoleInstruction("facilitator");
    FacilitatorInstructionHasPhrase();
    var lead := "Your role is " + "facilitator" + ". ";
    var persona := PersonalityLead + personality + ExpertiseLead + expertise + ".";
    var line := RoleLine("facilitator", personality, expertise);
    assert line == lead + instruction + persona;
    LowerAppend(lead + instruction, persona);
    LowerAppend(lead, instruction);
    ContainsInMiddle(Lower(lead), Lower(instruction), Lower(persona), Phrase);
    assert SystemPrompt("facilitator", personality, expertise) == PromptOpening + line + PromptClosing;
    LowerAppend(PromptOpening + line, PromptClosing);
    LowerAppend(PromptOpening, line);
    ContainsInMiddle(Lower(PromptOpening), Lower(line), Lower(PromptClosing), Phrase);
  }

  datatype ChatRole = SystemRole | UserRole

  /** One element of the `messages` list: `{"role": ..., "content": ...}`. */
  datatype Message = Message(role: ChatRole, content: string)

  /** The truth value of `conversation_history and conversation_history.strip()`. */
  predicate HasHistory(history: string) {
    Strip(history) != ""
  }

  /** The message list `call_llm` builds for one turn, given the turn's system prompt. */
  function TurnMessages(system: string, puzzle: string, history: string, prompt: string): seq<Message>
  {
    [Message(SystemRole, system),
     Message(UserRole, "The puzzle is: " + puzzle)]
    + (if HasHistory(history) then [Message(UserRole, "Conversation so far:\n" + history)] else [])
    + [Message(UserRole, prompt)]
  }

  /**
   * The shape of every turn's message list: the system prompt alone first, the
   * puzzle second, the prompt last, and the history in third place exactly when
   * it holds a non-white-space character.
   */
  lemma TurnMessagesShape(system: string, puzzle: string, history: string, prompt: string)
    ensures var m := TurnMessages(system, puzzle, history, prompt);
      && (|m| == 4 <==> exists k :: 0 <= k < |history| && !IsSpace(history[k]))
      && (|m| == 3 || |m| == 4)
      && m[0] == Message(SystemRole, system)
      && m[1] == Message(UserRole, "The puzzle is: " + puzzle)
      && m[|m| - 1] == Message(UserRole, prompt)
      && (|m| == 4 ==> m[2] == Message(UserRole, "Conversation so far:\n" + history))
      && (forall k :: 1 <= k < |m| ==> m[k].role == UserRole)
  {
    StripEmptyIff(history);
    var m := TurnMessages(system, puzzle, history, prompt);
    var opening := [Message(SystemRole, system), Message(UserRole, "The puzzle is: " + puzzle)];
    if HasHistory(history) {
      assert m == opening + [Message(UserRole, "Conversation so far:\n" + history)] + [Message(UserRole, prompt)];
    } else {
      assert m == opening + [Message(UserRole, prompt)];
    }
  }

  /** The content Gemini keeps as its head: that of the last system message, or "". */
  function LastSystemContent(messages: seq<Message>): string
    decreases |messages|
  {
    if messages == [] then ""
    else if messages[|messages| - 1].role == SystemRole then messages[|messages| - 1].content
    else LastSystemContent(messages[..|messages| - 1])
  }

  /** The contents of the non-system messages, in order. */
  function UserContents(messages: seq<Message>): seq<string>
    decreases |messages|
  {
    if messages == [] then []
    else UserContents(messages[..|messages| - 1])
         + (if messages[|messages| - 1].role == SystemRole then [] else [messages[|messages| - 1].content])
  }

  /** The single prompt string the Gemini adapter sends. */
  function GeminiPrompt(messages: seq<Message>): string {
    LastSystemContent(messages) + "\n\n" + Join("\n", UserContents(messages))
  }

  /**
   * The conversion loop of `_call_gemini`: a system message replaces the head
   * collected so far, any other message's content is appended to the parts,
   * and the parts are joined by newlines after the head and a blank line.
   */
  method FlattenForGemini(messages: seq<Message>) returns (fullPrompt: string)
    ensures fullPrompt == GeminiPrompt(messages)
  {
    var systemContent := "";
    var conversationParts: seq<string> := [];
    for i := 0 to |messages|
      invariant systemContent == LastSystemContent(messages[..i])
      invariant conversationParts == UserContents(messages[..i])
    {
      assert messages[..i + 1][..i] == messages[..i];
      var msg := messages[i];
      if msg.role == SystemRole {
        systemContent := msg.content;
      } else {
        conversationParts := conversationParts + [msg.content];
      }
    }
    assert messages[..|messages|] == messages;
    fullPrompt := systemContent + "\n\n" + Join("\n", conversationParts);
  }

  /** Appending a user message leaves the head alone and adds its content to the parts. */
  lemma FlattenAppendUser(messages: seq<Message>, content: string)
    ensures LastSystemContent(messages + [Message(UserRole, content)]) == LastSystemContent(messages)
    ensures UserContents(messages + [Message(UserRole, content)]) == UserContents(messages) + [content]
  {
    assert (messages + [Message(UserRole, content)])[..|messages|] == messages;
  }

  /** Joining one more part puts the separator before it. */
  lemma JoinAppend(sep: string, parts: seq<string>, part: string)
    requires parts != []
    ensures Join(sep, parts + [part]) == Join(sep, parts) + sep + part
  {
    assert (parts + [part])[..|parts|] == parts;
  }

  /** Flattening a system message followed by two or three user messages. */
  lemma GeminiPromptOfSystemThenUsers(head: string, first: string, middle: seq<string>, last: string)
    requires |middle| <= 1
    ensures GeminiPrompt([Message(SystemRole, head), Message(UserRole, first)]
                         + (if middle == [] then [] else [Message(UserRole, middle[0])])
                         + [Message(UserRole, last)])
            == head + "\n\n" + first + "\n" + (if middle == [] then "" else middle[0] + "\n") + last
  {
    var sys := Message(SystemRole, head);
    var opening := [sys, Message(UserRole, first)];
    assert [sys][..0] == [];
    assert UserContents([sys]) == [];
    assert LastSystemContent([sys]) == head;
    FlattenAppendUser([sys], first);
    assert [sys] + [Message(UserRole, first)] == opening;
    var body := opening + (if middle == [] then [] else [Message(UserRole, middle[0])]);
    var parts := [first] + middle;
    if middle == [] {
      assert body == opening;
    } else {
      FlattenAppendUser(opening, middle[0]);
      JoinAppend("\n", [first], middle[0]);
      assert parts == [first] + [middle[0]];
    }
    assert LastSystemContent(body) == head;
    assert UserContents(body) == parts;
    assert Join("\n", parts) == first + (if middle == [] then "" else "\n" + middle[0]);
    FlattenAppendUser(body, last);
    JoinAppend("\n", parts, last);
  }

  /**
   * What Gemini receives for a turn: the system prompt, a blank line, then the
   * puzzle line, the history block when there is one, and the prompt, one per line.
   */
  lemma GeminiPromptOfTurn(system: string, puzzle: string, history: string, prompt: string)
    ensures GeminiPrompt(TurnMessages(system, puzzle, history, prompt))
            == system + "\n\n" + "The puzzle is: " + puzzle + "\n"
               + (if HasHistory(history) then "Conversation so far:\n" + history + "\n" else "")
               + prompt
  {
    var puzzleLine := "The puzzle is: " + puzzle;
    if HasHistory(history) {
      var historyBlock := "Conversation so far:\n" + history;
      GeminiPromptOfSystemThenUsers(system, puzzleLine, [historyBlock], prompt);
      assert TurnMessages(system, puzzle, history, prompt)
             == [Message(SystemRole, system), Message(UserRole, puzzleLine)] + [Message(UserRole, historyBlock)] + [Message(UserRole, prompt)];
    } else {
      GeminiPromptOfSystemThenUsers(system, puzzleLine, [], prompt);
      assert TurnMessages(system, puzzle, history, prompt)
             == [Message(SystemRole, system), Message(UserRole, puzzleLine)] + [] + [Message(UserRole, prompt)];
    }
  }

}
