/**
 * The tool dispatcher (`process_tool_call`): maps a tool use requested by
 * the model to a result string and, for the two setter tools, to a change
 * of the focus state.
 */
module Tools {
  import opened Wrappers
  import opened Text
  import opened Messages
  import opened FocusState

  /** The tool names offered to the model in every request, in the order offered. */
  const AdvertisedTools: seq<string> := ["nop", "set_primary_task", "set_side_quests"]

  /**
   * The `{:?}` rendering of a list of strings, `["a", "b"]`: bracketed, and
   * opening with the first item in quotes.
   */
  function DebugList(items: seq<string>): (r: string)
    ensures |r| >= 2 && r[0] == '[' && r[|r| - 1] == ']'
    ensures items == [] ==> r == "[]"
    ensures items != [] ==> "[\"" + items[0] + "\"" <= r
  {
    "[" + Join(seq(|items|, i requires 0 <= i < |items| => "\"" + items[i] + "\""), ", ") + "]"
  }

  /** The tool use names a setter whose arguments parse, so it changes the state. */
  predicate Applies(name: string, input: ToolInput)
  {
    (name == "set_primary_task" && input.task.Some?) ||
    (name == "set_side_quests" && input.sideQuests.Some?)
  }

  predicate IsError(result: string)
  {
    "Error: " <= result
  }

  /**
   * The result string and the new state of one tool use. Only the objective
   * and the side quests can change, and only a setter with parsable
   * arguments changes anything; every other tool use answers with an error
   * text.
   */
  function ToolEffect(s: HistoryState, name: string, input: ToolInput): (r: (string, HistoryState))
    ensures r.1.tail == s.tail && r.1.lastIndex == s.lastIndex && r.1.options == s.options
    ensures !Applies(name, input) ==> r.1 == s
    ensures IsError(r.0) <==> !Applies(name, input)
  {
    if name == "set_primary_task" then
      match input.task
      case Some(task) =>
        var msg := "Primary task set to: " + task;
        assert msg[0] != "Error: "[0];
        (msg, s.(primaryObjective := Some(task)))
      case None => ("Error: Invalid arguments for set_primary_task", s)
    else if name == "set_side_quests" then
      match input.sideQuests
      case Some(quests) =>
        var msg := "Side quests set: " + DebugList(quests);
        assert msg[0] != "Error: "[0];
        (msg, s.(sideQuests := Some(quests)))
      case None => ("Error: Invalid arguments for set_side_quests", s)
    else
      ("Error: Unknown tool '" + name + "'", s)
  }

  /** `process_tool_call`: runs one tool use against the history object. */
  method ProcessToolCall(toolUse: ToolUseBlock, history: History) returns (result: string)
    modifies history
    ensures (result, history.Value()) == ToolEffect(old(history.Value()), toolUse.name, toolUse.input)
  {
    if toolUse.name == "set_primary_task" {
      match toolUse.input.task {
        case Some(task) =>
          history.primaryObjective := Some(task);
          result := "Primary task set to: " + task;
        case None =>
          result := "Error: Invalid arguments for set_primary_task";
      }
    } else if toolUse.name == "set_side_quests" {
      match toolUse.input.sideQuests {
        case Some(quests) =>
          history.sideQuests := Some(quests);
          result := "Side quests set: " + DebugList(quests);
        case None =>
          result := "Error: Invalid arguments for set_side_quests";
      }
    } else {
      result := "Error: Unknown tool '" + toolUse.name + "'";
    }
  }

  /** `set_primary_task` overwrites the objective with the given task text and confirms it. */
  lemma SetPrimaryTaskEffect(s: HistoryState, input: ToolInput, task: string)
    requires input.task == Some(task)
    ensures ToolEffect(s, "set_primary_task", input) ==
      ("Primary task set to: " + task, s.(primaryObjective := Some(task)))
  {
  }

  /**
   * `set_side_quests` replaces the list rather than merging into it, keeps
   * the objective, and confirms with the rendered list; an empty list is set
   * as an empty list, not as no list.
   */
  lemma SetSideQuestsEffect(s: HistoryState, input: ToolInput, quests: seq<string>)
    requires input.sideQuests == Some(quests)
    ensures ToolEffect(s, "set_side_quests", input) ==
      ("Side quests set: " + DebugList(quests), s.(sideQuests := Some(quests)))
    ensures ToolEffect(s, "set_side_quests", input).1.primaryObjective == s.primaryObjective
  {
  }

  /** A known tool with arguments that do not parse answers with an error naming the tool. */
  lemma MalformedArgumentsEffect(s: HistoryState, input: ToolInput)
    ensures input.task.None? ==>
      ToolEffect(s, "set_primary_task", input) == ("Error: Invalid arguments for set_primary_task", s)
    ensures input.sideQuests.None? ==>
      ToolEffect(s, "set_side_quests", input) == ("Error: Invalid arguments for set_side_quests", s)
  {
  }

  /**
   * Any other name answers with an error naming it. This includes `nop`,
   * which is offered to the model but has no arm in the dispatcher.
   */
  lemma UnknownToolEffect(s: HistoryState, name: string, input: ToolInput)
    requires name != "set_primary_task" && name != "set_side_quests"
    ensures ToolEffect(s, name, input) == ("Error: Unknown tool '" + name + "'", s)
    ensures name == "nop" ==> name in AdvertisedTools && IsError(ToolEffect(s, name, input).0)
  {
  }

  /** A second `set_primary_task` replaces the first task; nothing of it remains. */
  lemma SetPrimaryTaskReplaces(s: HistoryState, first: string, second: string)
    ensures var mid := ToolEffect(s, "set_primary_task", ToolInput(Some(first), None)).1;
      ToolEffect(mid, "set_primary_task", ToolInput(Some(second), None)).1 ==
      s.(primaryObjective := Some(second))
  {
  }

  /** Setting two quests and then none leaves an empty list, not an absent one. */
  lemma SetSideQuestsToEmpty(s: HistoryState)
    ensures var mid := ToolEffect(s, "set_side_quests", ToolInput(None, Some(["a", "b"]))).1;
      ToolEffect(mid, "set_side_quests", ToolInput(None, Some([]))).1.sideQuests == Some([])
  {
  }
}
