# Debate engine of the puzzle-solving agent mesh

This project models the debate engine of `src/debate_tools.py` and proves what it promises.

A debate takes a puzzle, a list of cards and a number of rounds. A card is a persona with a model, a role, a personality and an expertise. The engine works in these steps:

1. It rejects card lists with fewer than two cards or with no facilitator.
2. It splits off the facilitator. The last card whose lower-cased role is `facilitator` wins.
3. Each round, it shuffles the other participants, and each of them speaks once through `call_llm`. Then the facilitator speaks.
4. It stops right after a facilitator reply that contains "that is the answer", ignoring case. Otherwise it stops after the last round.

`run_debate` behaves as follows:
- It normalises provider aliases (`gpt`, `google`, ...).
- It pushes every turn to the front end, as a role, a display text and a colour.
- It keeps a history with one record per call.
- It returns the number of rounds begun, the history, the final answer and the conversation text.

`run_debate_streaming` differs:
- It does not normalise aliases.
- It reports each turn to an optional callback instead of pushing.
- It keeps no history.
- It returns only the final answer.

The model is organised as follows:
- `Text` holds ASCII `lower`/`upper`/`strip`, substring search and decimal rendering.
- `Cards` holds the card record and the facilitator split.
- `Frontend` holds the colour table and display text.
- `Prompts` holds the system prompt, the message list and Gemini flattening.
- `Providers` holds alias normalisation and the `call_llm` routing table.
- `Debate` holds `call_llm` and the engine as specification functions:
  - `ParticipantTurn`, `FacilitatorTurn`, `Round` and `Rounds`;
  - `Played`, `DebateSpec` and `StreamingSpec`.
- `Engine` holds `run_debate` and `run_debate_streaming` as loops, each proved equal to its specification.
- `DebateLaws` holds the properties of the specification functions.

The model services are an oracle `(call number, request) -> reply`. The engine receives `call_llm` as a function parameter (`CallLlmFn`). `Debate.CallLlmOf(oracle)` is the real `call_llm` over an oracle, and the lemmas hold for any such function unless they say otherwise. `random.shuffle` is a caller-supplied function `(round, participants) -> order`.

The model keeps these behaviours of the code, which its documentation does not promise:
- With `max_rounds <= 0`, `run_debate` reads `round_num` before it is ever assigned (line 431), which raises. This is the outcome `Crashed`. The streaming copy returns a completed result with no answer.
- A history record carries no round number.
- If several cards are facilitators, only the last one speaks. The earlier ones take no part.

## Model

| member | source | states |
|---|---|---|
| Text.TrimLeft | src/debate_tools.py:183 | left strip removes exactly a leading run of white space: the result is a suffix, everything dropped is white space, and the result does not start with white space |
| Text.TrimRight | src/debate_tools.py:183 | right strip removes exactly a trailing run of white space: the result is a prefix, everything dropped is white space, and the result does not end with white space |
| Text.StripEmptyIff | src/debate_tools.py:195 | a stripped string is empty exactly when every character of the original is white space, so the history message is added exactly when the history has a non-space character |
| Text.Contains | src/debate_tools.py:411 | the `in` test on strings holds exactly when the pattern occurs at some position |
| Text.NatToStringRoundTrip | src/debate_tools.py:309 | the decimal text of the round number in the round notice reads back as the same number |
| Cards.SplitCards | src/debate_tools.py:283-290 | the split loop yields the last facilitator card and the non-facilitator cards in input order |
| Cards.LastFacilitatorIsLast | src/debate_tools.py:283-292 | a facilitator is found exactly when some card has the facilitator role, and the one kept is a facilitator card with no facilitator card after it |
| Cards.NonFacilitatorsMembers | src/debate_tools.py:284-290 | a card is a participant exactly when it is in the list and is not a facilitator, so earlier facilitator cards are in neither list |
| Cards.NonFacilitatorsAppend | src/debate_tools.py:286-290 | the participants of a concatenation are the participants of each part, in order |
| Cards.NonFacilitatorsLength | src/debate_tools.py:286-292 | there are never more participants than cards, and the counts are equal exactly when no card is a facilitator |
| Frontend.ColoursIdentifyRoles | src/debate_tools.py:19-32 | the five coloured roles each have their own colour, none of them white; every other role, `system` included, is shown in white |
| Frontend.RoleColour | src/debate_tools.py:32 | specification function of the colour lookup; ColoursIdentifyRoles states its properties |
| Frontend.DisplayText | src/debate_tools.py:33 | specification function of the display text; DisplayTextRoundTrip and MessageOfDisplayText state its properties |
| Frontend.DisplayTextRoundTrip | src/debate_tools.py:33 | with a non-empty model the display text starts with the tag `[<model>] ` and the message follows it, so reading past the tag gives back the message; an empty model leaves the message bare |
| Frontend.MessageOfDisplayText | src/debate_tools.py:33 | the other direction: a text read back as a message is the display text of that message, and a text without the tag `[<model>] ` is the display text of no message for that model |
| Frontend.PushOf | src/debate_tools.py:29-36 | a push keeps its role, takes the colour `ROLE_COLOURS` gives that role, is white exactly for roles outside the five coloured roles (`system` included), and its display text gives back the message |
| Prompts.RoleLine | src/debate_tools.py:54-58 | specification function of the role line of the f-string; RoleLineOpens and RoleLinePersona state its layout |
| Prompts.RoleLineOpens | src/debate_tools.py:54-58 | the role line starts with `Your role is <role>. `, followed right away by the table's instruction for the role, or by the fallback for a role the table does not list |
| Prompts.RoleLinePersona | src/debate_tools.py:58 | after the instruction the role line has ` Your personality is `, the personality as given, `. Your expertise is `, the expertise as given, and a closing full stop, and nothing more |
| Prompts.SystemPrompt | src/debate_tools.py:52-62 | the system prompt is the fixed opening at the start, then the role line, and has exactly the length of opening, role line and closing |
| Prompts.SystemPromptCloses | src/debate_tools.py:55-62 | the system prompt ends with the fixed closing, right after the role line |
| Prompts.FacilitatorInstructionHasPhrase | src/debate_tools.py:46 | the facilitator's instruction in the table contains the termination phrase the engine looks for, once lower-cased |
| Prompts.FacilitatorIsToldThePhrase | src/debate_tools.py:46-62 | the system prompt a facilitator receives, whatever its personality and expertise, contains the termination phrase once lower-cased |
| Prompts.TurnMessages | src/debate_tools.py:189-199 | specification function of the message list; TurnMessagesShape states its shape and Debate.BuildMessages is proved equal to it |
| Prompts.TurnMessagesShape | src/debate_tools.py:189-199 | the message list has 3 or 4 entries: system prompt, puzzle, the history only when it has a non-space character, then the prompt; all but the first are user messages |
| Prompts.GeminiPrompt | src/debate_tools.py:100-110 | specification function of Gemini's flattened prompt; FlattenForGemini is proved equal to it, and GeminiPromptOfSystemThenUsers and GeminiPromptOfTurn give its closed forms |
| Prompts.FlattenForGemini | src/debate_tools.py:100-110 | the flattening loop computes the Gemini prompt: the last system content, a blank line, then the other contents joined by newlines |
| Prompts.GeminiPromptOfSystemThenUsers | src/debate_tools.py:100-110 | for a system message followed by two or three user messages, the flattened prompt is the system text, a blank line and the user texts one per line |
| Prompts.GeminiPromptOfTurn | src/debate_tools.py:100-110 | the Gemini prompt of a turn is the system prompt, a blank line, the puzzle line, the history block when there is one, and the prompt |
| Providers.Route | src/debate_tools.py:202-222 | specification function of the provider `if/elif` chain with each branch's default model; RouteServesKnownProviders states its properties |
| Providers.NormaliseAlias | src/debate_tools.py:316-327 | specification function of the alias chain of `run_debate` (the facilitator's copy at 371-381 is the same); NormaliseAliasIdempotent, NormaliseAliasRescuesGpt, NormaliseAliasRescuesGoogle and NormaliseAliasKeepsRoute state its properties |
| Providers.RouteServesKnownProviders | src/debate_tools.py:202-222 | exactly the six names openai, chatgpt, gemini, llama, qwen and kimi reach an adapter: openai and chatgpt reach OpenAI with `gpt-4o`, gemini reaches Gemini with `gemini-2.5-flash`, and llama, qwen and kimi reach Groq with `llama-3.3-70b-versatile`, `qwen/qwen3-32b` and `moonshotai/kimi-k2-instruct` |
| Providers.NormaliseAliasIdempotent | src/debate_tools.py:316-327 | normalising a provider alias twice gives the same result as once |
| Providers.NormaliseAliasRescuesGpt | src/debate_tools.py:318-319 | a card model `gpt`, in any case, is refused by `call_llm` as written but reaches OpenAI once normalised |
| Providers.GptIsOnlyAnAlias | src/debate_tools.py:202-222 | the name `gpt` is not one `call_llm` accepts, and the name it normalises to is |
| Providers.NormaliseAliasRescuesGoogle | src/debate_tools.py:320-321 | a card model `google`, in any case, is refused by `call_llm` as written but reaches Gemini once normalised |
| Providers.NormaliseAliasKeepsRoute | src/debate_tools.py:316-327 | for every other model name, normalising does not change which adapter `call_llm` uses |
| Debate.CallLlmSpec | src/debate_tools.py:183-231 | specification function of `call_llm`; CallLlmOutcome states its properties and Debate.CallLlm is proved equal to it |
| Debate.CallLlmOutcome | src/debate_tools.py:183-231 | `call_llm` refuses exactly the unknown canonical providers, with the fixed message; otherwise it succeeds with whatever the adapter returns for the turn's messages, and echoes the canonical provider, role, personality and expertise |
| Debate.BuildMessages | src/debate_tools.py:189-199 | building the message list by appending gives the list that TurnMessagesShape describes |
| Debate.Dispatch | src/debate_tools.py:202-222 | the `if/elif` chain calls the adapter the routing table names, Gemini with the flattened prompt, and reports unknown providers |
| Debate.CallLlm | src/debate_tools.py:183-231 | `call_llm` step by step computes what CallLlmOutcome describes |
| Debate.ParticipantTurn | src/debate_tools.py:316-368 | specification function of a participant turn in either copy; its properties are the ParticipantTurn* lemmas, and Engine.ParticipantSpeaks and Engine.ParticipantStreams are proved equal to it |
| Debate.FacilitatorTurn | src/debate_tools.py:370-422 | specification function of the facilitator turn; its properties are the FacilitatorTurn* lemmas, and Engine.FacilitatorSpeaks and Engine.FacilitatorStreams are proved equal to it |
| Debate.Round | src/debate_tools.py:308-424 | specification function of one round; its properties are the Round* lemmas |
| Debate.Rounds | src/debate_tools.py:308-425 | specification function of the round loop with its `break`, giving the final state and `round_num + 1`; its properties are RoundsGrow, RoundsKept, RoundsConclude, RoundsReplies, RoundsSpeakers, RoundsCallCount, RoundsStreaming, RoundsConcludeStreaming and RoundsCallbacks |
| Debate.SplitOf | src/debate_tools.py:273-298 | specification function of the card-count check and the facilitator split; DebateRejections, StreamingLaws and DebateHistory state what it accepts and keeps, and Cards.SplitCards computes the split |
| Debate.Played | src/debate_tools.py:300-435 | specification function of `run_debate` once the cards are accepted; Engine.Play is proved equal to it and the Played* lemmas state its properties |
| Debate.DebateSpec | src/debate_tools.py:259-435 | specification function of `run_debate`; Engine.RunDebate is proved equal to it and the Played*/Debate* lemmas state its properties |
| Debate.StreamingSpec | src/debate_tools.py:459-546 | specification function of `run_debate_streaming`; Engine.RunDebateStreaming is proved equal to it and StreamingLaws states its properties |
| Engine.ParticipantSpeaks | src/debate_tools.py:316-368 | one participant turn of `run_debate` in place: the new counter, history, conversation text and pushes are those of the turn specification |
| Engine.FacilitatorSpeaks | src/debate_tools.py:370-422 | the facilitator turn of `run_debate` in place, including the final answer and the concluded notice |
| Engine.PlayRound | src/debate_tools.py:309-424 | one round of `run_debate`: round notice, shuffle, every participant, then the facilitator, equal to the round specification |
| Engine.PlayRounds | src/debate_tools.py:304-425 | the round loop of `run_debate` with its `break` ends in the state and round count of the loop specification |
| Engine.Play | src/debate_tools.py:300-435 | after validation: start notice, rounds, ended notice when there is no answer, and the returned dictionary |
| Engine.RunDebate | src/debate_tools.py:259-435 | `run_debate` as a whole, its errors included, equals the debate specification |
| Engine.ParticipantStreams | src/debate_tools.py:486-512 | one participant turn of the streaming copy, with the provider not normalised and a callback only when there is one |
| Engine.FacilitatorStreams | src/debate_tools.py:514-539 | the facilitator turn of the streaming copy |
| Engine.StreamRound | src/debate_tools.py:482-541 | one round of the streaming copy |
| Engine.RunDebateStreaming | src/debate_tools.py:459-546 | `run_debate_streaming` as a whole equals the streaming specification |
| DebateLaws.ParticipantTurnGrows | src/debate_tools.py:329-365 | a participant turn, in either copy (streaming at 488-507), makes one call, only appends, adds conversation text exactly when the call succeeds, and that text is the record's line `[ROLE]: reply`; it never sets the final answer |
| DebateLaws.ParticipantTurnBatch | src/debate_tools.py:339-365 | in `run_debate` a participant turn appends exactly one record (its reply or its error) under the card's role and model, the conversation text grows by that record's line, and it pushes exactly one message: its reply under its role and model, or the error notice under role `error` |
| DebateLaws.ParticipantTurnStreaming | src/debate_tools.py:498-510 | a streaming participant turn keeps the history empty and, when there is a callback, makes exactly one: its reply under its role and model, or the error message under role `error`; none otherwise |
| DebateLaws.FacilitatorTurnGrows | src/debate_tools.py:383-422 | a facilitator turn, in either copy (streaming at 515-535), makes one call, only appends, adds the record's line `[FACILITATOR]: reply` to the conversation text, and sets the final answer exactly when the reply succeeds and contains the phrase; the answer is that reply |
| DebateLaws.FacilitatorTurnBatch | src/debate_tools.py:393-422 | in `run_debate` the facilitator turn appends exactly one record under role `facilitator`, the conversation text grows by that record's line, and it pushes its reply under role `facilitator` followed by the concluded notice when the reply contains the phrase, or the error notice under role `error` |
| DebateLaws.FacilitatorTurnConcludes | src/debate_tools.py:410-414 | the debate is concluded exactly when the new record is a reply containing the phrase; then that reply is the final answer and the last record, and the concluded notice is the last push |
| DebateLaws.FacilitatorTurnStreaming | src/debate_tools.py:525-539 | the streaming facilitator turn keeps the history empty and, when there is a callback, makes exactly one: its reply under role `facilitator`, or the error message under role `error`; no concluded notice is announced |
| DebateLaws.SpeakAllGrows | src/debate_tools.py:315-368 | the participants' turns make one call each, only append, and never set the final answer |
| DebateLaws.SpeakAllKept | src/debate_tools.py:315-365 | one history record per call, and the conversation text is the rendering of the history, survive the participants' turns |
| DebateLaws.SpeakAllSpeakers | src/debate_tools.py:315-365 | the participants' turns add one record per participant, in the shuffled order, under that card's role and model |
| DebateLaws.SpeakAllStreaming | src/debate_tools.py:485-512 | the streaming bookkeeping survives the participants' turns |
| DebateLaws.RoundGrows | src/debate_tools.py:309-424 | a round makes one call per participant plus one, only appends, and any final answer it sets contains the phrase |
| DebateLaws.RoundKept | src/debate_tools.py:309-424 | one record per call, and conversation text equal to the rendered history, survive a round |
| DebateLaws.RoundSpeakers | src/debate_tools.py:312-422 | a round adds the participants' records in shuffled order followed by the facilitator's record |
| DebateLaws.RoundConcludes | src/debate_tools.py:393-414 | a round ends the debate exactly when its last record is a facilitator reply containing the phrase, which then is the final answer |
| DebateLaws.RoundStreaming | src/debate_tools.py:482-541 | the streaming bookkeeping survives a round |
| DebateLaws.RoundsGrow | src/debate_tools.py:308-424 | the loop only appends; without an answer it begins all `max_rounds` rounds, and with one it stops after the round that found it (RoundsReplies states that it stops at the first concluding reply) |
| DebateLaws.ParticipantTurnReplies | src/debate_tools.py:339-365 | a participant turn of a non-facilitator card adds no facilitator reply, neither to the history of `run_debate` nor to the callbacks of the streaming copy (499-510) |
| DebateLaws.SpeakAllReplies | src/debate_tools.py:315-365 | the participants' turns add no facilitator reply, in either copy |
| DebateLaws.FacilitatorTurnAddsReply | src/debate_tools.py:393-422 | the facilitator turn adds its reply to the facilitator's replies when the call succeeds and nothing when it fails, in the history of `run_debate` and in the callbacks of the streaming copy (525-539) |
| DebateLaws.FacilitatorTurnReplies | src/debate_tools.py:393-414 | starting with no concluding facilitator reply, after the facilitator turn the final answer is set exactly as the first concluding reply: without an answer still none concludes, with one it is the last reply and none before it concludes; in either copy (streaming: 525-536) |
| DebateLaws.RoundReplies | src/debate_tools.py:308-424 | the same for a whole round |
| DebateLaws.RoundsReplies | src/debate_tools.py:308-424 | the round loop stops at the first concluding facilitator reply, as the history of `run_debate` or the callbacks of the streaming copy show it: without an answer no facilitator reply concludes; with one, the answer is the facilitator's last reply and none of the earlier ones concludes |
| DebateLaws.RoundBlock | src/debate_tools.py:309-424 | a round adds one block of speakers, the participants in the round's shuffled order then the facilitator, which is the first of the blocks of the remaining rounds |
| DebateLaws.RoundsSpeakersLast | src/debate_tools.py:308-414 | a round that ends the debate adds the last block of speakers |
| DebateLaws.RoundsSpeakers | src/debate_tools.py:308-424 | the speakers of the loop's history are a sequence of round blocks, one per round begun: each round's participants in that round's shuffled order, then the facilitator |
| DebateLaws.RoundsKept | src/debate_tools.py:304-424 | the loop keeps one history record per call and the conversation text equal to the rendered history |
| DebateLaws.RoundsConclude | src/debate_tools.py:411-414 | when the loop ends with an answer, the last record is the concluding facilitator reply and the last push is the concluded notice |
| DebateLaws.RoundsStreaming | src/debate_tools.py:481-541 | the streaming loop keeps the history empty and one callback per call |
| DebateLaws.RoundConcludesStreaming | src/debate_tools.py:525-536 | a streaming round that sets the answer ends with the facilitator's concluding callback |
| DebateLaws.RoundsConcludeStreaming | src/debate_tools.py:481-541 | when the streaming loop leaves an answer, its last callback is the facilitator's concluding reply under the facilitator's model: no one speaks after the `break` at 536 |
| DebateLaws.SpeakAllCallbacks | src/debate_tools.py:485-512 | the participants' callbacks name their models in the order they speak |
| DebateLaws.RoundCallbacks | src/debate_tools.py:482-541 | a streaming round calls back for the participants in that round's shuffled order, then for the facilitator |
| DebateLaws.RoundModelsBlock | src/debate_tools.py:481-541 | a streaming round adds one block of callbacks, and the blocks of later rounds follow it |
| DebateLaws.RoundsCallbacksLast | src/debate_tools.py:534-536 | the round that ends the streaming debate adds the last block of callbacks |
| DebateLaws.RoundsCallbacks | src/debate_tools.py:481-541 | the streaming loop's callbacks are one block per round begun, each the participants in that round's order followed by the facilitator |
| DebateLaws.RoundsCallCount | src/debate_tools.py:308-424 | with a shuffle that keeps the number of participants, the loop makes `participants + 1` calls in every round it begins |
| DebateLaws.PlayedCrashes | src/debate_tools.py:308-431 | once the cards are accepted, `run_debate` raises exactly when `max_rounds <= 0`, and never returns a validation error |
| DebateLaws.DebateRejections | src/debate_tools.py:259-298 | `run_debate` returns an error exactly for undecodable input, fewer than two cards, or no facilitator, and then pushes nothing; it raises exactly for accepted cards with `max_rounds <= 0` |
| DebateLaws.RejectionMakesNoCall | src/debate_tools.py:259-298 | a rejected debate is the same whatever `call_llm` does, so no model is called |
| DebateLaws.PlayedRounds | src/debate_tools.py:426-431 | the rounds completed are between 1 and `max_rounds`; without an answer they are exactly `max_rounds` and the last push is the ended notice |
| DebateLaws.PlayedConcludes | src/debate_tools.py:410-414 | with an answer, the answer contains the phrase, is the message of the last record, a facilitator reply, and the last push is the concluded notice |
| DebateLaws.PlayedWhenConcluded | src/debate_tools.py:426-435 | once the loop has an answer, no ended notice is pushed and the result carries the loop's state |
| DebateLaws.PlayedStartsWithNotice | src/debate_tools.py:301 | the first push of an accepted debate is the start notice with the puzzle |
| DebateLaws.PlayedTranscript | src/debate_tools.py:305-434 | the returned conversation text is exactly the successful replies of the history, each as `[ROLE]: reply` in order |
| DebateLaws.PlayedHistoryCount | src/debate_tools.py:308-432 | with a shuffle that only reorders, the history has `rounds_completed * (participants + 1)` records |
| DebateLaws.DebateHistory | src/debate_tools.py:283-434 | for an accepted card list, the history has `rounds_completed * (non-facilitator cards + 1)` records and the conversation text renders it |
| DebateLaws.PlayedSpeakers | src/debate_tools.py:308-432 | the returned history reads as `rounds_completed` round blocks, each the participants in that round's order followed by the facilitator |
| DebateLaws.StreamedCallbacks | src/debate_tools.py:481-546 | with a callback, the streaming copy's callbacks read as one block per round begun, participants in that round's order then the facilitator, and on an answer the last callback is the facilitator's concluding reply |
| DebateLaws.PlayedFirstAnswer | src/debate_tools.py:300-433 | once the cards are accepted and the shuffle only reorders: without a final answer no facilitator reply in the history concludes; with one, the answer is the facilitator's last reply and none before it concludes |
| DebateLaws.DebateFirstAnswer | src/debate_tools.py:283-433 | for any card list `run_debate` accepts: without a final answer no facilitator reply in the history concludes; with one, the answer is the facilitator's last reply and none before it concludes |
| DebateLaws.StreamingLaws | src/debate_tools.py:459-546 | the streaming copy rejects fewer than two cards or no facilitator with no callbacks; otherwise it only makes callbacks, none without a callback, and any answer contains the phrase; with a callback and a shuffle that only reorders it stops at the first concluding reply (534-536): without an answer no facilitator callback concludes, and with one the answer is the last facilitator callback and none before it concludes |
| DebateLaws.StreamingStops | src/debate_tools.py:534-546 | with a callback, when the streaming copy returns an answer, the last callback is that answer under role `facilitator` and the facilitator card's model: it stops right after the concluding reply |
| DebateLaws.ParticipantCallRefused | src/debate_tools.py:316-336 | with the real `call_llm`, a participant's call is refused exactly when its provider, after the copy's own normalisation, is unknown |
| DebateLaws.GptCardServedOnlyInBatch | src/debate_tools.py:316-336 | with the real `call_llm`, a card whose model is `gpt` is refused exactly in the streaming copy, which skips alias normalisation |

## Left out

- The HTTP delivery of `_push_to_frontend` and its swallowed exceptions are left out, and so is `send_frontend_message`. A push is an event in the returned event list.
- The bodies of `_call_openai`, `_call_gemini` and `_call_groq` are left out, apart from Gemini's flattening step. Their API keys, environment variables and client libraries are left out too. Together they are the oracle.
- The adapters' replies are always strings. A `None` reply from a provider is not modelled.
- `call_llm`'s `model_name`, `tool_context` and `**kwargs` parameters are left out. The engine never passes them, so each branch uses its default model.
- `time.sleep(0.3)` pacing is left out because it is timing only.
- The streaming callback `on_message` is assumed to return normally. It is called outside any `try` (lines 504-505, 509-510, 529-530, 538-539), so an exception from it would end `run_debate_streaming`. That path is not modelled.
- The adapters are assumed to return normally. The code before each adapter's `try` can raise (the imports at lines 67, 89 and 131, and the client construction at lines 73 and 138-141), and `call_llm` would then raise too. That path is not modelled.
- `random.shuffle` is a parameter. The record-count lemmas require that it only reorders.
- JSON parsing of the `cards` string is left out. A decode failure is the input variant `Undecodable` with its reason text. The streaming copy's `json.loads` path is not modelled: it takes a parsed list.
- Cards are records with optional string fields. JSON `null` values and non-string fields are not modelled. A `null` role fails on `.lower()`: line 287 in `run_debate`, line 470 in `run_debate_streaming`. A `null` model fails on `.lower()` in the alias chain of `run_debate` (line 318 for a participant, line 372 for the facilitator), before `call_llm` is reached; in `run_debate_streaming` it fails inside `call_llm` (line 183). A `null` personality or expertise is instead written into the system prompt as `None` (line 58) and stored in the history (lines 351-352).
- `lower`, `upper` and `strip` are ASCII only. Unicode case mapping and non-ASCII white space are not modelled.
- Other files are not part of this model:
  - `llms.py`: provider wrapper classes;
  - `app.py`: the web server;
  - `card.py`: a plain record, used only as the shape of a card.
