# stayfocused, modelled in Dafny

This project models the live part of `notapsychai`:

- **The `stayfocused` session.** It keeps a persisted focus state: a rolling window of recent shell-history lines, a primary objective and a list of side quests.
- **The conversation.** A bounded, tool-using conversation with a generation model updates that state.
- **The line-editor helpers.** Command hints, tab completion and the Tab key handler.

The modules follow the program:

| module | file | what it models |
|---|---|---|
| `Wrappers`, `Arith` | `wrappers.dfy`, `arith.dfy` | `Option`, and `usize::saturating_sub` |
| `Text` | `text.dfy` | `join`, `split` and `split_terminator` on strings, with their round trips |
| `Window` | `window.dfy` | the trailing window `extend` + `split_off` keeps, and how merges compose |
| `Messages` | `messages.dfy` | the service's content blocks, stop reasons and transcript messages |
| `FocusState` | `focus.dfy` | the `History` record as a class updated in place; `as_content_block` as a string-building loop proved against a rendering function |
| `Tools` | `tools.dfy` | `process_tool_call`: a method on the `History` object, proved against a pure effect function |
| `Conversation` | `conversation.dfy` | the three-round loop of `main`: normalising replies, dispatching tool uses in order, appending messages |
| `Session` | `session.dfy` | `main` end to end: tail selection (with an in-place `reverse`), load or default, merge, conversation, save |
| `Cli` | `cli.dfy` | `CommandHint`, its `Candidate` and `Hint` views, `complete`, the fallback of `hint`, and the Tab handler |

The generation service is a parameter: a sequence of responses, where reply `i` answers request `i`. A run that needs more replies than that sequence holds is a failed send.

In the source, a failed send and an unexpected server tool use make the program panic. The model gives each of these an `Aborted` outcome, and an aborted run writes nothing back.

Some behaviours of the code are easy to miss; the model follows the code:

- **First message.** The first user message holds only the histfile block (`src/stayfocused.rs:145-150`), not the rendered objective and quests. `History::as_content_block` is modelled and proved, but `main` never calls it (`FocusState.FirstMessageOmitsFocus`).
- **The `nop` tool.** `nop` is advertised to the model but has no arm in the dispatcher, so calling it returns the unknown-tool error (`Tools.UnknownToolEffect`).
- **Tool results.** All results of one round go into a single user message, in tool-use order, and only when there is at least one.
- **Error flag.** `is_error` is never set, even when the result text is an error (`Conversation.AddedMessagesHaveNoErrorFlag`).
- **Thinking blocks.** A `Thinking` block becomes a text block holding the thinking text. Only `RedactedThinking` becomes the placeholder.
- **`set_primary_task`.** It can fail on malformed arguments, leaving the state unchanged.
- **Read cursor.** `last_index` is carried along but never read or advanced (`Conversation.RunKeepsWindow`, `Session.RunSessionWindow`).

## Model

| member | source | states |
|---|---|---|
| Text.JoinAppend | src/stayfocused.rs:58 | joining one more line puts exactly one separator before it |
| Text.JoinEnds | src/stayfocused.rs:58 | a joined window opens with its first line and closes with its last |
| Text.JoinContainsPart | src/stayfocused.rs:58 | every window line appears in `join("\n")` at a computed offset |
| Text.Split | src/stayfocused.rs:119 | splitting gives at least one piece and no piece contains the delimiter |
| Text.SplitJoin | src/stayfocused.rs:119 | joining the pieces of a split with the delimiter gives back the text |
| Text.SplitOfJoin | src/stayfocused.rs:119 | splitting a join of delimiter-free parts gives back the parts |
| Text.SplitTerminator | src/stayfocused.rs:119 | the histfile lines never contain a newline |
| Text.SplitTerminatorJoin | src/stayfocused.rs:119 | no lines exactly for an empty file; the lines joined by newlines give back the file, plus the final newline when it has one, so a final newline yields no empty last line |
| Text.SplitTerminatorOfLines | src/stayfocused.rs:119 | a file written as newline-terminated, newline-free lines splits back into exactly those lines |
| Text.SplitTerminatorOfSeparatedLines | src/stayfocused.rs:119 | lines merely separated by newlines, the last one non-empty, split back into exactly those lines |
| Window.TakeLast | src/stayfocused.rs:140-142 | the result has `min(len, n)` elements and is the trailing part of the input, order kept |
| Window.Merge | src/stayfocused.rs:139-142 | the merged window holds at most `cap` lines, is the trailing part of old-then-new, and is all of it when that fits |
| Window.MergeIsTrailingPart | src/stayfocused.rs:139-142 | the merged window has as many elements as `old ++ new`, capped at `cap`, and they are the last elements of `old ++ new` in order |
| Window.MergeNothing | src/stayfocused.rs:139-142 | merging no lines into a window within capacity leaves it unchanged |
| Window.MergeKeepsFreshLines | src/stayfocused.rs:139-142 | when at most `cap` lines arrive, all of them end the new window |
| Window.MergeTwice | src/stayfocused.rs:139-142 | merging `a` then `b` equals merging `a ++ b` once |
| Window.MergeEachIsTrailingWindow | src/stayfocused.rs:139-142 | over any number of runs, the window is the trailing `cap` lines of everything ever merged and never exceeds `cap` |
| FocusState.History.Restore | src/stayfocused.rs:138 | the loaded object holds exactly the stored state |
| FocusState.History.Default | src/stayfocused.rs:126-132 | the default state has an empty window, cursor 0, no objective, no side quests and the command-line options |
| FocusState.History.ExtendTail | src/stayfocused.rs:139-142 | the window becomes the merge of the old window and the new lines under the stored capacity; its length is at most that capacity; no other field changes |
| FocusState.History.AsContentBlock | src/stayfocused.rs:38-63 | the method builds exactly the rendered context, as one text block |
| FocusState.AppendBullets | src/stayfocused.rs:48-52 | the loop over side quests appends one `- q` line per quest, in list order |
| FocusState.RenderStartsWithObjective | src/stayfocused.rs:40-44 | the text begins with `Primary objective: <po>` and a newline when an objective is set; without one it does not begin with `Primary objective: ` |
| FocusState.BulletsPrefix | src/stayfocused.rs:48-52 | the bullets of the first `k` quests begin the bullets of all quests, so the order is kept |
| FocusState.BulletAt | src/stayfocused.rs:48-52 | each quest's `- q` line appears at its computed offset in the bullet list |
| FocusState.RenderListsQuests | src/stayfocused.rs:45-54 | with a non-empty quest list, `Side quests:` follows the objective line and every quest appears as its own bullet, in order; with no list or an empty list, the text is just the objective line and the histfile block |
| FocusState.RenderEndsWithHistfile | src/stayfocused.rs:55-62 | for every state, including one with an empty window, the text ends with the histfile block |
| FocusState.RenderEndsWithWindow | src/stayfocused.rs:55-62 | every window line appears at its offset in the histfile block that ends the text |
| FocusState.FirstMessageOmitsFocus | src/stayfocused.rs:145-150 | the first message is the rendered context of a state without objective or quests, minus the final newline; it differs from the full rendering whenever an objective or quests are set |
| Tools.DebugList | src/stayfocused.rs:90 | the list rendering is bracketed, is `[]` for no quests, and opens with the first quest in quotes |
| Tools.ToolEffect | src/stayfocused.rs:76-99 | the window, cursor and options never change; the result is an error exactly when the call does not apply, and then nothing changes |
| Tools.ProcessToolCall | src/stayfocused.rs:76-99 | the result string and the new state of the `History` object are those of the effect function |
| Tools.SetPrimaryTaskEffect | src/stayfocused.rs:79-82 | with parsable arguments, the objective becomes the given task text, everything else stays, and the reply is `Primary task set to: <task>` |
| Tools.SetSideQuestsEffect | src/stayfocused.rs:87-90 | with parsable arguments, the quests are replaced by the given list (not merged), the objective stays, and the reply is `Side quests set: ` followed by the list rendering |
| Tools.MalformedArgumentsEffect | src/stayfocused.rs:79-94 | arguments that do not parse leave the state unchanged and give `Error: Invalid arguments for <tool>` |
| Tools.UnknownToolEffect | src/stayfocused.rs:95-97 | any other name, including the advertised `nop`, leaves the state unchanged and gives `Error: Unknown tool '<name>'` |
| Tools.SetPrimaryTaskReplaces | src/stayfocused.rs:81 | a second objective overwrites the first |
| Tools.SetSideQuestsToEmpty | src/stayfocused.rs:89 | setting an empty list gives `Some([])`, not `None` |
| Conversation.NormalizeBlock | src/stayfocused.rs:200-209 | a block is refused exactly when it is a server tool use; a tool use is recorded as itself, and only a tool use is recorded as one |
| Conversation.Normalize | src/stayfocused.rs:197-211 | normalising fails exactly when a server tool use is present; otherwise each block maps to one block, position by position |
| Conversation.NormalizedKinds | src/stayfocused.rs:200-209 | text and tool uses are copied, thinking becomes its text, and redacted thinking becomes `[Thinking was redacted]` |
| Conversation.ServerToolUseAborts | src/stayfocused.rs:203 | a reply with a server tool use aborts the run, with the transcript and state as they were |
| Conversation.ToolUsesComplete | src/stayfocused.rs:226-227 | the extracted tool uses are exactly the reply's tool-use blocks: every one of them is extracted, and nothing else |
| Conversation.ToolUsesInOrder | src/stayfocused.rs:226-227 | tool uses are taken in block order: those of earlier blocks come first |
| Conversation.DispatchAll | src/stayfocused.rs:225-236 | there is one result per tool use, and the window, cursor and options are untouched |
| Conversation.DispatchAnswersEachToolUse | src/stayfocused.rs:226-235 | the `i`-th result answers the `i`-th tool use: same id, no error flag, and as content the dispatcher's reply on the state the earlier tool uses left |
| Conversation.DispatchFinalState | src/stayfocused.rs:225-236 | after a round's dispatch the state is the one the tool uses leave when run in block order |
| Conversation.UnknownToolAnsweredWithError | src/stayfocused.rs:95-97 | a tool use naming no known tool is answered in its place, with its id and the unknown-tool error text |
| Conversation.DispatchWithoutSettersKeepsState | src/stayfocused.rs:225-236 | a round whose tool uses are all errors leaves the state unchanged |
| Conversation.DispatchTools | src/stayfocused.rs:225-236 | the dispatch loop yields the results and final `History` state of the pure dispatch |
| Conversation.RunRounds | src/stayfocused.rs:153-245 | the round-by-round loop sends at most 3 requests and always at least one more from where it starts |
| Conversation.RunConversation | src/stayfocused.rs:153-245 | the loop yields the transcript, outcome and `History` state of the round-by-round specification |
| Conversation.RoundBudget | src/stayfocused.rs:153 | every run sends between 1 and 3 requests, and a finished run never used more replies than there were |
| Conversation.StopsAtFirstFinalReply | src/stayfocused.rs:219-222 | the run finishes right after the first reply whose stop reason is not tool use |
| Conversation.ToolUseEveryRoundStopsAtBudget | src/stayfocused.rs:153-245 | if every reply asks for tools, the run still finishes after exactly 3 requests |
| Conversation.LastRoundStillDispatches | src/stayfocused.rs:224-244 | tools requested in the third round are still dispatched and their results appended |
| Conversation.RoundMessages | src/stayfocused.rs:213-244 | each round appends the normalised assistant message; on a tool-use stop the tool-result user message follows exactly when there are tool uses, and without tool uses the next round starts right after the assistant message; a final reply ends the run finished |
| Conversation.TranscriptGrows | src/stayfocused.rs:151-245 | the transcript only grows, by at most two messages per remaining round |
| Conversation.AddedMessagesHaveNoErrorFlag | src/stayfocused.rs:232 | no message added during the run carries an error flag, even for error results |
| Conversation.ToolResultsHaveNoErrorFlag | src/stayfocused.rs:232 | the tool-result message of a round carries no error flag |
| Conversation.AssistantHasNoErrorFlag | src/stayfocused.rs:197-216 | the assistant message of a round carries no error flag |
| Conversation.RunKeepsWindow | src/stayfocused.rs:153-245 | the conversation never changes the window, the cursor `last_index` or the options |
| Session.Reverse | src/stayfocused.rs:123 | reversal keeps the length and mirrors positions |
| Session.ReverseOfNewestFirst | src/stayfocused.rs:118-123 | reversing the newest `n` lines, taken newest first, gives the last `n` lines in file order |
| Session.ReverseInPlace | src/stayfocused.rs:123 | the array afterwards holds its old contents reversed |
| Session.SelectActions | src/stayfocused.rs:118-123 | the selected actions are the last `tail` lines of the histfile, in file order |
| Session.Loaded | src/stayfocused.rs:124-138 | the stored state when there is one; otherwise an empty window, cursor 0, no objective, no side quests and the command-line options |
| Session.Prepared | src/stayfocused.rs:118-142 | merging the newest lines keeps every field but the window, keeps the window within the stored capacity, and puts the new lines at its end when they fit |
| Session.RunSession | src/stayfocused.rs:101-245 | a whole run sends 1 to 3 requests, finishes only on replies it received, and leaves the merged window, the cursor and the options as prepared |
| Session.StayFocused | src/stayfocused.rs:101-250 | the run matches the session specification, and the state is written back exactly when the run finished |
| Session.RunSessionWindow | src/stayfocused.rs:118-142 | after a run, the window is the stored window merged with the newest lines under the stored capacity; the cursor is unchanged; 1 to 3 requests are sent |
| Session.ScenarioLines | src/stayfocused.rs:118-122 | a three-line histfile with a final newline gives exactly its three lines |
| Session.ScenarioRounds | src/stayfocused.rs:153-245 | a `set_primary_task` reply followed by a plain reply sets the objective and finishes after 2 requests |
| Session.SetTaskScenario | src/stayfocused.rs:101-250 | from the default state, three histfile lines and those two replies, the window holds the three lines, the objective is `Clean up TODOs`, the run takes 2 requests, and that state is written back |
| Cli.NewCommandHint | src/cli.rs:18-24 | the hint displays the text, and its completable part is exactly the given prefix, within the text |
| Cli.Suffix | src/cli.rs:26-31 | the stripped characters followed by the new text give the old text; the completable length shrinks by the strip count, saturating at 0; well-formedness is kept |
| Cli.Completion | src/cli.rs:49-55 | there is no completion exactly when the completable length is 0; otherwise it is the prefix of that length |
| Cli.CandidateIsWholeHint | src/cli.rs:34-46 | as a candidate, a hint displays and inserts its whole text, which begins with its completion |
| Cli.SuffixCompletion | src/cli.rs:26-55 | the completion of a stripped hint is the rest of the original completion, or nothing once the strip covers it |
| Cli.Candidates | src/cli.rs:77-87 | the candidates are exactly the stripped commands that begin with the prefix, and there are no more of them than commands |
| Cli.CandidatesInOrder | src/cli.rs:77-87 | candidates keep command-list order |
| Cli.Complete | src/cli.rs:71-89 | completion starts at the cursor; every candidate completes the typed text to a known command, and every command beginning with that text gives a candidate |
| Cli.FirstHint | src/cli.rs:106-115 | there is no fallback hint exactly when no hint begins with the line; otherwise it is the first such hint, stripped |
| Cli.Hint | src/cli.rs:97-116 | no hint unless the cursor is at the end of a non-empty line; a history hint is offered whole and fully completable; otherwise the fallback answers exactly when some hint matches |
| Cli.HandleTab | src/cli.rs:123-136 | Tab inserts `n` tab characters exactly when the character before the cursor is whitespace; otherwise, and at the start of the line, it falls back to completion |

## Left out

- `src/lib.rs` is not part of this model. Apart from imports, module declarations and string constants, it is commented out.
- Reading the environment and the command line, and `process::exit`, are left out. The options and the histfile contents are parameters.
- File reads and writes are left out. The stored state (or its absence) is a parameter, and the written state is a result. Read errors other than a missing state file panic in the source and are not modelled.
- The panic when the state file is not valid JSON (`src/stayfocused.rs:138`) is not modelled: the stored state is always a well-formed value.
- JSON (de)serialisation is left out. A tool's arguments are the outcome of parsing them against each argument schema (`ToolInput`), and the state document is a value.
- The Anthropic client, the request contents and the printing of responses are left out. The request contents are the model name, `max_tokens`, the system prompt and the tool schemas. The service is a sequence of replies.
- `eprintln!` logging of tool input and `async` are left out.
- Tools.DebugList: renders the side-quest list as Rust's `{:?}` does, but without escaping quotes or control characters inside the quests.
- Tools.SetSideQuestsEffect: states the whole reply, `Side quests set: ` followed by the list, but the list part is the unescaped `Tools.DebugList` rendering.
- Cli.Hint: the history hinter is an input of type `Option<string>`, not a search of the line history.
- Text and positions are sequences of characters. Rust slices strings by byte, so the model matches the source on ASCII text. A byte offset inside a multi-byte character, where Rust panics, is not modelled.
- Cli.HandleTab: only the cursor position, the line and the repeat count are inputs. The event and the other context are ignored by the source and not modelled.
