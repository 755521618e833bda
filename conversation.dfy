/**
 * The bounded conversation with the generation service: at most three
 * request rounds; each response is recorded as one assistant message, and a
 * tool-use stop dispatches every tool use of the response, in order, and
 * answers them in one user message of tool results.
 *
 * The service is a sequence of replies: the reply to the `k`-th request is
 * `replies[k]`, and a request with no reply stands for a failed call.
 */
module Conversation {
  import opened Wrappers
  import opened Messages
  import opened FocusState
  import opened Tools

  /** The turn budget: requests per session. */
  const MaxRounds: nat := 3

  const RedactedPlaceholder := "[Thinking was redacted]"

  /** How one response block is recorded in the assistant message; `None` aborts the session. */
  function NormalizeBlock(block: ContentBlock): (r: Option<MessageContentBlock>)
    ensures r.None? <==> block.ServerToolUse?
    ensures block.ToolUse? ==> r == Some(ToolUsePart(block.toolUse))
    ensures r.Some? && r.value.ToolUsePart? ==> block.ToolUse?
  {
    match block
    case Text(text) => Some(TextPart(text))
    case ToolUse(toolUse) => Some(ToolUsePart(toolUse))
    case ServerToolUse(_, _) => None
    case Thinking(thinking, _) => Some(TextPart(thinking))
    case RedactedThinking(_) => Some(TextPart(RedactedPlaceholder))
  }

  predicate HasServerToolUse(content: seq<ContentBlock>)
  {
    exists i :: 0 <= i < |content| && content[i].ServerToolUse?
  }

  /**
   * The assistant content of a response: every block recorded in its place,
   * or `None` when some block is a server tool use.
   */
  function Normalize(content: seq<ContentBlock>): (r: Option<seq<MessageContentBlock>>)
    ensures r.None? <==> HasServerToolUse(content)
    ensures r.Some? ==> (|r.value| == |content| &&
      forall i :: 0 <= i < |content| ==> NormalizeBlock(content[i]) == Some(r.value[i]))
  {
    if content == [] then Some([])
    else
      var rest := Normalize(content[1..]);
      assert forall i :: 1 <= i < |content| ==> content[i] == content[1..][i - 1];
      match NormalizeBlock(content[0])
      case None => None
      case Some(block) => if rest.None? then None else Some([block] + rest.value)
  }

  /** The tool uses of a response, in block order. */
  function ToolUses(content: seq<ContentBlock>): (uses: seq<ToolUseBlock>)
    ensures |uses| <= |content|
    decreases |content|
  {
    if content == [] then []
    else (if content[0].ToolUse? then [content[0].toolUse] else []) + ToolUses(content[1..])
  }

  /**
   * The tool uses are exactly those of the tool-use blocks: none is skipped
   * and none is made up.
   */
  lemma {:induction false} ToolUsesComplete(content: seq<ContentBlock>)
    ensures forall i :: 0 <= i < |content| && content[i].ToolUse? ==> content[i].toolUse in ToolUses(content)
    ensures forall u :: u in ToolUses(content) ==> ToolUse(u) in content
    decreases |content|
  {
    if content != [] {
      ToolUsesComplete(content[1..]);
      assert forall i :: 1 <= i < |content| ==> content[i] == content[1..][i - 1];
    }
  }

  /** Tool uses are taken in block order: those of the first blocks come first. */
  lemma {:induction false} ToolUsesInOrder(first: seq<ContentBlock>, second: seq<ContentBlock>)
    ensures ToolUses(first + second) == ToolUses(first) + ToolUses(second)
    decreases |first|
  {
    if first == [] {
      assert first + second == second;
    } else {
      assert (first + second)[0] == first[0];
      assert (first + second)[1..] == first[1..] + second;
      ToolUsesInOrder(first[1..], second);
    }
  }

  /** The state after running the given tool uses one after the other. */
  function StateAfter(s: HistoryState, uses: seq<ToolUseBlock>): HistoryState
    decreases |uses|
  {
    if uses == [] then s
    else StateAfter(ToolEffect(s, uses[0].name, uses[0].input).1, uses[1..])
  }

  /**
   * Dispatches every tool use of a response in order, one tool result per
   * tool use; only the objective and the side quests can change.
   */
  function DispatchAll(s: HistoryState, content: seq<ContentBlock>): (r: (seq<MessageContentBlock>, HistoryState))
    ensures |r.0| == |ToolUses(content)|
    ensures r.1.tail == s.tail && r.1.lastIndex == s.lastIndex && r.1.options == s.options
    decreases |content|
  {
    if content == [] then ([], s)
    else if content[0].ToolUse? then
      var toolUse := content[0].toolUse;
      var effect := ToolEffect(s, toolUse.name, toolUse.input);
      var rest := DispatchAll(effect.1, content[1..]);
      ([ToolResultPart(toolUse.id, Some(effect.0), None)] + rest.0, rest.1)
    else
      DispatchAll(s, content[1..])
  }

  /**
   * The `i`-th tool result answers the `i`-th tool use by its id, carries the
   * dispatcher's reply on the state the earlier tool uses left, and never an
   * error flag, not even for an error reply.
   */
  lemma {:induction false} DispatchAnswersEachToolUse(s: HistoryState, content: seq<ContentBlock>, i: nat)
    requires i < |ToolUses(content)|
    ensures var result, u := DispatchAll(s, content).0[i], ToolUses(content)[i];
      result.ToolResultPart? && result.toolUseId == u.id &&
      result.content == Some(ToolEffect(StateAfter(s, ToolUses(content)[..i]), u.name, u.input).0) &&
      result.isError.None?
    decreases |content|
  {
    var uses, rest := ToolUses(content), ToolUses(content[1..]);
    if content[0].ToolUse? {
      var effect := ToolEffect(s, content[0].toolUse.name, content[0].toolUse.input);
      assert uses == [content[0].toolUse] + rest;
      var later := DispatchAll(effect.1, content[1..]).0;
      assert DispatchAll(s, content).0 == [ToolResultPart(content[0].toolUse.id, Some(effect.0), None)] + later;
      if i == 0 {
        assert uses[..0] == [];
      } else {
        DispatchAnswersEachToolUse(effect.1, content[1..], i - 1);
        assert DispatchAll(s, content).0[i] == later[i - 1];
        assert uses[..i] == [content[0].toolUse] + rest[..i - 1];
        assert uses[..i][1..] == rest[..i - 1];
        assert StateAfter(s, uses[..i]) == StateAfter(effect.1, rest[..i - 1]);
      }
    } else {
      assert uses == rest;
      DispatchAnswersEachToolUse(s, content[1..], i);
    }
  }

  /**
   * A tool use naming no known tool is answered, in its place, with the
   * unknown-tool error text; the round goes on.
   */
  lemma UnknownToolAnsweredWithError(s: HistoryState, content: seq<ContentBlock>, i: nat)
    requires i < |ToolUses(content)|
    requires ToolUses(content)[i].name != "set_primary_task" && ToolUses(content)[i].name != "set_side_quests"
    ensures var result := DispatchAll(s, content).0[i];
      result.ToolResultPart? && result.toolUseId == ToolUses(content)[i].id &&
      result.content == Some("Error: Unknown tool '" + ToolUses(content)[i].name + "'")
  {
    DispatchAnswersEachToolUse(s, content, i);
  }

  /** After a round's dispatch the state is the one the tool uses, run in order, leave. */
  lemma {:induction false} DispatchFinalState(s: HistoryState, content: seq<ContentBlock>)
    ensures DispatchAll(s, content).1 == StateAfter(s, ToolUses(content))
    decreases |content|
  {
    if content != [] {
      if content[0].ToolUse? {
        var effect := ToolEffect(s, content[0].toolUse.name, content[0].toolUse.input);
        DispatchFinalState(effect.1, content[1..]);
        assert ToolUses(content)[1..] == ToolUses(content[1..]);
      } else {
        DispatchFinalState(s, content[1..]);
        assert ToolUses(content) == ToolUses(content[1..]);
      }
    }
  }

  /** Tool uses none of which is a setter with parsable arguments leave the state as it was. */
  lemma {:induction false} DispatchWithoutSettersKeepsState(s: HistoryState, content: seq<ContentBlock>)
    requires forall i :: 0 <= i < |content| && content[i].ToolUse? ==>
      !Applies(content[i].toolUse.name, content[i].toolUse.input)
    ensures DispatchAll(s, content).1 == s
    decreases |content|
  {
    if content != [] {
      assert forall i :: 1 <= i < |content| ==> content[1..][i - 1] == content[i];
      DispatchWithoutSettersKeepsState(s, content[1..]);
    }
  }

  /** The loop over a response's blocks that runs each tool use against the history. */
  method DispatchTools(content: seq<ContentBlock>, history: History) returns (toolResults: seq<MessageContentBlock>)
    modifies history
    ensures (toolResults, history.Value()) == DispatchAll(old(history.Value()), content)
  {
    toolResults := [];
    ghost var start := history.Value();
    assert content[0..] == content;
    assert [] + DispatchAll(start, content).0 == DispatchAll(start, content).0;
    for i := 0 to |content|
      invariant DispatchAll(start, content) ==
        (toolResults + DispatchAll(history.Value(), content[i..]).0, DispatchAll(history.Value(), content[i..]).1)
    {
      ghost var before := history.Value();
      ghost var rest := content[i..];
      assert rest[0] == content[i] && rest[1..] == content[i + 1..];
      if content[i].ToolUse? {
        var toolUse := content[i].toolUse;
        var result := ProcessToolCall(toolUse, history);
        ghost var tail := DispatchAll(history.Value(), content[i + 1..]);
        assert DispatchAll(before, rest) == ([ToolResultPart(toolUse.id, Some(result), None)] + tail.0, tail.1);
        assert toolResults + ([ToolResultPart(toolUse.id, Some(result), None)] + tail.0) ==
          (toolResults + [ToolResultPart(toolUse.id, Some(result), None)]) + tail.0;
        toolResults := toolResults + [ToolResultPart(toolUse.id, Some(result), None)];
      } else {
        assert DispatchAll(before, rest) == DispatchAll(before, content[i + 1..]);
      }
    }
    assert content[|content|..] == [];
    assert toolResults + [] == toolResults;
  }

  datatype Abort = ServiceFailed | UnexpectedServerToolUse

  /** How the loop ended, and how many requests it sent. */
  datatype Outcome = Finished(requests: nat) | Aborted(requests: nat, reason: Abort)

  /** The state, the transcript and the outcome at the end of the loop. */
  datatype Run = Run(state: HistoryState, messages: seq<MessageParam>, outcome: Outcome)

  /** The loop from request `round` on, given the state and the transcript so far. */
  function RunRounds(s: HistoryState, messages: seq<MessageParam>, replies: seq<Response>, round: nat): (r: Run)
    requires round <= MaxRounds
    ensures r.outcome.requests <= MaxRounds
    ensures round < MaxRounds ==> round < r.outcome.requests
    decreases MaxRounds - round
  {
    if round == MaxRounds then Run(s, messages, Finished(MaxRounds))
    else if round >= |replies| then Run(s, messages, Aborted(round + 1, ServiceFailed))
    else
      var response := replies[round];
      match Normalize(response.content)
      case None => Run(s, messages, Aborted(round + 1, UnexpectedServerToolUse))
      case Some(blocks) =>
        var recorded := messages + [MessageParam(Blocks(blocks), Assistant)];
        if response.stopReason != Some(ToolUseRequested) then
          Run(s, recorded, Finished(round + 1))
        else
          var dispatched := DispatchAll(s, response.content);
          var next := if dispatched.0 == [] then recorded
                      else recorded + [MessageParam(Blocks(dispatched.0), User)];
          RunRounds(dispatched.1, next, replies, round + 1)
  }

  /** The `for _ in 0..3` loop of the session. */
  method RunConversation(history: History, first: MessageParam, replies: seq<Response>)
    returns (messages: seq<MessageParam>, outcome: Outcome)
    modifies history
    ensures Run(history.Value(), messages, outcome) == RunRounds(old(history.Value()), [first], replies, 0)
  {
    messages := [first];
    for round := 0 to MaxRounds
      invariant RunRounds(old(history.Value()), [first], replies, 0) ==
        RunRounds(history.Value(), messages, replies, round)
    {
      if round >= |replies| {
        outcome := Aborted(round + 1, ServiceFailed);
        return;
      }
      var response := replies[round];
      var assistantContent := Normalize(response.content);
      if assistantContent.None? {
        outcome := Aborted(round + 1, UnexpectedServerToolUse);
        return;
      }
      messages := messages + [MessageParam(Blocks(assistantContent.value), Assistant)];
      if response.stopReason != Some(ToolUseRequested) {
        outcome := Finished(round + 1);
        return;
      }
      var toolResults := DispatchTools(response.content, history);
      if toolResults != [] {
        messages := messages + [MessageParam(Blocks(toolResults), User)];
      }
    }
    outcome := Finished(MaxRounds);
  }

  /**
   * Whatever the replies, the loop sends at most `MaxRounds` requests, at
   * least one more than it had sent; it finishes only on replies it received.
   */
  lemma {:induction false} RoundBudget(s: HistoryState, messages: seq<MessageParam>, replies: seq<Response>, round: nat)
    requires round < MaxRounds
    ensures var out := RunRounds(s, messages, replies, round).outcome;
      round < out.requests <= MaxRounds && (out.Finished? ==> out.requests <= |replies|)
    decreases MaxRounds - round
  {
    if round + 1 < MaxRounds && round < |replies| {
      var response := replies[round];
      if Normalize(response.content).Some? && response.stopReason == Some(ToolUseRequested) {
        var dispatched := DispatchAll(s, response.content);
        var recorded := messages + [MessageParam(Blocks(Normalize(response.content).value), Assistant)];
        var next := if dispatched.0 == [] then recorded
                    else recorded + [MessageParam(Blocks(dispatched.0), User)];
        RoundBudget(dispatched.1, next, replies, round + 1);
      }
    }
  }

  /** Every reply from `round` to `last` is free of server tool uses. */
  predicate Recordable(replies: seq<Response>, round: nat, last: nat)
    requires last < |replies|
  {
    forall j :: round <= j <= last ==> !HasServerToolUse(replies[j].content)
  }

  /**
   * The loop stops right after the first reply whose stop reason is not a
   * tool-use request, when that reply comes within the budget.
   */
  lemma {:induction false} StopsAtFirstFinalReply(s: HistoryState, messages: seq<MessageParam>, replies: seq<Response>, round: nat, last: nat)
    requires round <= last < MaxRounds && last < |replies|
    requires Recordable(replies, round, last)
    requires forall j :: round <= j < last ==> replies[j].stopReason == Some(ToolUseRequested)
    requires replies[last].stopReason != Some(ToolUseRequested)
    ensures RunRounds(s, messages, replies, round).outcome == Finished(last + 1)
    decreases last - round
  {
    if round < last {
      var response := replies[round];
      var dispatched := DispatchAll(s, response.content);
      var recorded := messages + [MessageParam(Blocks(Normalize(response.content).value), Assistant)];
      var next := if dispatched.0 == [] then recorded
                  else recorded + [MessageParam(Blocks(dispatched.0), User)];
      StopsAtFirstFinalReply(dispatched.1, next, replies, round + 1, last);
    }
  }

  /** A service that asks for tools on every reply gets exactly `MaxRounds` requests. */
  lemma {:induction false} ToolUseEveryRoundStopsAtBudget(s: HistoryState, messages: seq<MessageParam>, replies: seq<Response>, round: nat)
    requires round <= MaxRounds <= |replies|
    requires forall j :: round <= j < MaxRounds ==>
      !HasServerToolUse(replies[j].content) && replies[j].stopReason == Some(ToolUseRequested)
    ensures RunRounds(s, messages, replies, round).outcome == Finished(MaxRounds)
    decreases MaxRounds - round
  {
    if round < MaxRounds {
      var response := replies[round];
      var dispatched := DispatchAll(s, response.content);
      var recorded := messages + [MessageParam(Blocks(Normalize(response.content).value), Assistant)];
      var next := if dispatched.0 == [] then recorded
                  else recorded + [MessageParam(Blocks(dispatched.0), User)];
      ToolUseEveryRoundStopsAtBudget(dispatched.1, next, replies, round + 1);
    }
  }

  /**
   * The tool uses of the last reply within the budget are still dispatched
   * and answered, although no request follows them.
   */
  lemma LastRoundStillDispatches(s: HistoryState, messages: seq<MessageParam>, replies: seq<Response>)
    requires MaxRounds <= |replies|
    requires var last := replies[MaxRounds - 1];
      !HasServerToolUse(last.content) && last.stopReason == Some(ToolUseRequested) && ToolUses(last.content) != []
    ensures var last := replies[MaxRounds - 1];
      var dispatched := DispatchAll(s, last.content);
      RunRounds(s, messages, replies, MaxRounds - 1) ==
        Run(dispatched.1,
            messages + [MessageParam(Blocks(Normalize(last.content).value), Assistant), MessageParam(Blocks(dispatched.0), User)],
            Finished(MaxRounds))
  {
    var last := replies[MaxRounds - 1];
    var dispatched := DispatchAll(s, last.content);
    assert dispatched.0 != [];
    var assistant := MessageParam(Blocks(Normalize(last.content).value), Assistant);
    assert messages + [assistant] + [MessageParam(Blocks(dispatched.0), User)] ==
      messages + [assistant, MessageParam(Blocks(dispatched.0), User)];
  }

  /**
   * The loop never touches the window, the options or the read cursor:
   * `last_index` keeps the value it had.
   */
  lemma {:induction false} RunKeepsWindow(s: HistoryState, messages: seq<MessageParam>, replies: seq<Response>, round: nat)
    requires round <= MaxRounds
    ensures var r := RunRounds(s, messages, replies, round).state;
      r.tail == s.tail && r.lastIndex == s.lastIndex && r.options == s.options
    decreases MaxRounds - round
  {
    if round < MaxRounds && round < |replies| {
      var response := replies[round];
      if Normalize(response.content).Some? && response.stopReason == Some(ToolUseRequested) {
        var dispatched := DispatchAll(s, response.content);
        var recorded := messages + [MessageParam(Blocks(Normalize(response.content).value), Assistant)];
        var next := if dispatched.0 == [] then recorded
                    else recorded + [MessageParam(Blocks(dispatched.0), User)];
        RunKeepsWindow(dispatched.1, next, replies, round + 1);
      }
    }
  }

  /** No block of the message is a tool result carrying an error flag. */
  predicate NoErrorFlag(message: MessageParam)
  {
    message.content.Blocks? ==>
      forall j :: 0 <= j < |message.content.blocks| ==>
        !(message.content.blocks[j].ToolResultPart? && message.content.blocks[j].isError.Some?)
  }

  /**
   * The transcript only grows: what was there stays, in place, and each
   * round adds at most two messages.
   */
  lemma {:induction false} TranscriptGrows(s: HistoryState, messages: seq<MessageParam>, replies: seq<Response>, round: nat)
    requires round <= MaxRounds
    ensures var r := RunRounds(s, messages, replies, round).messages;
      messages <= r && |r| <= |messages| + 2 * (MaxRounds - round)
    decreases MaxRounds - round
  {
    if round < MaxRounds && round < |replies| && Normalize(replies[round].content).Some? {
      var response := replies[round];
      var recorded := messages + [MessageParam(Blocks(Normalize(response.content).value), Assistant)];
      if response.stopReason == Some(ToolUseRequested) {
        var dispatched := DispatchAll(s, response.content);
        var next := if dispatched.0 == [] then recorded
                    else recorded + [MessageParam(Blocks(dispatched.0), User)];
        TranscriptGrows(dispatched.1, next, replies, round + 1);
      }
    }
  }

  /** No message the loop adds carries a tool result with an error flag. */
  lemma {:induction false} AddedMessagesHaveNoErrorFlag(s: HistoryState, messages: seq<MessageParam>, replies: seq<Response>, round: nat)
    requires round <= MaxRounds
    ensures var r := RunRounds(s, messages, replies, round).messages;
      forall i :: |messages| <= i < |r| ==> NoErrorFlag(r[i])
    decreases MaxRounds - round
  {
    if round < MaxRounds && round < |replies| && Normalize(replies[round].content).Some? {
      var response := replies[round];
      var assistant := MessageParam(Blocks(Normalize(response.content).value), Assistant);
      var recorded := messages + [assistant];
      AssistantHasNoErrorFlag(response.content);
      if response.stopReason == Some(ToolUseRequested) {
        var dispatched := DispatchAll(s, response.content);
        var results := MessageParam(Blocks(dispatched.0), User);
        var next := if dispatched.0 == [] then recorded else recorded + [results];
        ToolResultsHaveNoErrorFlag(s, response.content);
        AddedMessagesHaveNoErrorFlag(dispatched.1, next, replies, round + 1);
        TranscriptGrows(dispatched.1, next, replies, round + 1);
        var r := RunRounds(dispatched.1, next, replies, round + 1).messages;
        assert r == RunRounds(s, messages, replies, round).messages;
        forall i | |messages| <= i < |r|
          ensures NoErrorFlag(r[i])
        {
          if i < |next| {
            assert r[i] == next[i];
          }
        }
      }
    }
  }

  /** The user message of tool results carries no error flag. */
  lemma ToolResultsHaveNoErrorFlag(s: HistoryState, content: seq<ContentBlock>)
    ensures NoErrorFlag(MessageParam(Blocks(DispatchAll(s, content).0), User))
  {
    var results := DispatchAll(s, content).0;
    forall j | 0 <= j < |results|
      ensures !(results[j].ToolResultPart? && results[j].isError.Some?)
    {
      DispatchAnswersEachToolUse(s, content, j);
    }
  }

  /** The assistant message recording a response carries no error flag. */
  lemma AssistantHasNoErrorFlag(content: seq<ContentBlock>)
    requires !HasServerToolUse(content)
    ensures NoErrorFlag(MessageParam(Blocks(Normalize(content).value), Assistant))
  {
    var blocks := Normalize(content).value;
    forall j | 0 <= j < |blocks|
      ensures !(blocks[j].ToolResultPart? && blocks[j].isError.Some?)
    {
      assert NormalizeBlock(content[j]) == Some(blocks[j]);
    }
  }

  /**
   * One round's messages: the assistant message records the response's
   * blocks in order; on a tool-use stop the next message is the user message
   * of tool results, present exactly when the response holds a tool use.
   */
  lemma RoundMessages(s: HistoryState, messages: seq<MessageParam>, replies: seq<Response>, round: nat)
    requires round < MaxRounds && round < |replies|
    requires !HasServerToolUse(replies[round].content)
    ensures var r, blocks := RunRounds(s, messages, replies, round).messages, Normalize(replies[round].content).value;
      |messages| < |r| && r[|messages|] == MessageParam(Blocks(blocks), Assistant)
    ensures var r, dispatched := RunRounds(s, messages, replies, round).messages, DispatchAll(s, replies[round].content);
      replies[round].stopReason == Some(ToolUseRequested) && ToolUses(replies[round].content) != [] ==>
        |messages| + 1 < |r| && r[|messages| + 1] == MessageParam(Blocks(dispatched.0), User)
    ensures var blocks := Normalize(replies[round].content).value;
      replies[round].stopReason != Some(ToolUseRequested) ==>
        RunRounds(s, messages, replies, round) == Run(s, messages + [MessageParam(Blocks(blocks), Assistant)], Finished(round + 1))
    ensures var blocks := Normalize(replies[round].content).value;
      replies[round].stopReason == Some(ToolUseRequested) && ToolUses(replies[round].content) == [] ==>
        RunRounds(s, messages, replies, round) ==
          RunRounds(DispatchAll(s, replies[round].content).1, messages + [MessageParam(Blocks(blocks), Assistant)], replies, round + 1)
  {
    var response := replies[round];
    var blocks := Normalize(response.content).value;
    var recorded := messages + [MessageParam(Blocks(blocks), Assistant)];
    if response.stopReason == Some(ToolUseRequested) {
      var dispatched := DispatchAll(s, response.content);
      var next := if dispatched.0 == [] then recorded
                  else recorded + [MessageParam(Blocks(dispatched.0), User)];
      TranscriptGrows(dispatched.1, next, replies, round + 1);
    }
  }

  /** A server tool use in a reply within the budget aborts the session at that request. */
  lemma ServerToolUseAborts(s: HistoryState, messages: seq<MessageParam>, replies: seq<Response>, round: nat)
    requires round < MaxRounds && round < |replies|
    requires HasServerToolUse(replies[round].content)
    ensures RunRounds(s, messages, replies, round) == Run(s, messages, Aborted(round + 1, UnexpectedServerToolUse))
  {
  }

  /**
   * How each kind of response block is recorded: text, and tool uses as they
   * are, thinking as its text, redacted thinking as a fixed placeholder.
   */
  lemma NormalizedKinds(content: seq<ContentBlock>, i: nat)
    requires i < |content| && !HasServerToolUse(content)
    ensures var b := Normalize(content).value[i];
      (content[i].Text? ==> b == TextPart(content[i].text)) &&
      (content[i].ToolUse? ==> b == ToolUsePart(content[i].toolUse)) &&
      (content[i].Thinking? ==> b == TextPart(content[i].thinking)) &&
      (content[i].RedactedThinking? ==> b == TextPart("[Thinking was redacted]"))
  {
  }
}
