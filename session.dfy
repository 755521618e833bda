/**
 * One run of the focus tool (`main`): read the newest histfile lines, load
 * the state (or start from the default one), merge the lines into the
 * window, hold the bounded conversation, and write the state back unless
 * the run aborted. Reading and writing files, the environment and the
 * command line are outside the model: their results are parameters.
 */
module Session {
  import opened Wrappers
  import opened Text
  import opened Window
  import opened Messages
  import opened FocusState
  import opened Tools
  import opened Conversation

  function Reverse<T>(s: seq<T>): (r: seq<T>)
    ensures |r| == |s|
    ensures forall i :: 0 <= i < |s| ==> r[i] == s[|s| - 1 - i]
  {
    if s == [] then [] else Reverse(s[1..]) + [s[0]]
  }

  /** `lines.rev().take(n)`: the newest `n` lines, newest first. */
  function NewestFirst(lines: seq<string>, n: nat): seq<string>
  {
    Reverse(lines)[..if n <= |lines| then n else |lines|]
  }

  /** Put back in reading order, the newest `n` lines newest first are the last `n` lines. */
  lemma ReverseOfNewestFirst(lines: seq<string>, n: nat)
    ensures Reverse(NewestFirst(lines, n)) == TakeLast(lines, n)
  {
    var newest, last := NewestFirst(lines, n), TakeLast(lines, n);
    assert |Reverse(newest)| == |last|;
    forall i | 0 <= i < |last|
      ensures Reverse(newest)[i] == last[i]
    {
      assert Reverse(newest)[i] == newest[|newest| - 1 - i];
    }
  }

  /** `Vec::reverse` on the buffer of selected lines. */
  method ReverseInPlace(a: array<string>)
    modifies a
    ensures a[..] == Reverse(old(a[..]))
  {
    var n := a.Length;
    for i := 0 to n / 2
      invariant forall k :: 0 <= k < i ==> a[k] == old(a[n - 1 - k]) && a[n - 1 - k] == old(a[k])
      invariant forall k :: i <= k < n - i ==> a[k] == old(a[k])
    {
      a[i], a[n - 1 - i] := a[n - 1 - i], a[i];
    }
    assert forall k :: 0 <= k < n ==> a[..][k] == Reverse(old(a[..]))[k];
  }

  /**
   * The histfile lines the run works with: the last `tail` lines of the
   * file split on newlines, in the file's order.
   */
  method SelectActions(histfile: string, tail: nat) returns (actions: seq<string>)
    ensures actions == TakeLast(SplitTerminator(histfile, '\n'), tail)
  {
    var lines := SplitTerminator(histfile, '\n');
    var newest := NewestFirst(lines, tail);
    var buffer := new string[|newest|](i requires 0 <= i < |newest| => newest[i]);
    assert buffer[..] == newest;
    ReverseInPlace(buffer);
    actions := buffer[..];
    ReverseOfNewestFirst(lines, tail);
  }

  /** The state the run starts from: the stored one, or the default when no state file exists. */
  function Loaded(stored: Option<HistoryState>, options: StayFocusedOptions): (r: HistoryState)
    ensures stored.Some? ==> r == stored.value
    ensures stored.None? ==>
      r.tail == [] && r.lastIndex == 0 && r.primaryObjective.None? && r.sideQuests.None? && r.options == options
  {
    match stored
    case Some(s) => s
    case None => HistoryState([], 0, None, None, options)
  }

  /**
   * The state once the newest `cliTail` lines are merged into the window,
   * which is cut to the capacity stored in the state, not to `cliTail`.
   */
  function Prepared(s: HistoryState, histfile: string, cliTail: nat): (r: HistoryState)
    ensures r.lastIndex == s.lastIndex && r.primaryObjective == s.primaryObjective &&
      r.sideQuests == s.sideQuests && r.options == s.options
    ensures |r.tail| <= s.options.tail
    ensures var incoming := TakeLast(SplitTerminator(histfile, '\n'), cliTail);
      |incoming| <= s.options.tail ==> |incoming| <= |r.tail| && r.tail[|r.tail| - |incoming|..] == incoming
  {
    var incoming := TakeLast(SplitTerminator(histfile, '\n'), cliTail);
    var merged := s.(tail := Merge(s.tail, incoming, s.options.tail));
    if |incoming| <= s.options.tail then
      MergeKeepsFreshLines(s.tail, incoming, s.options.tail);
      merged
    else
      merged
  }

  function FirstMessage(tail: seq<string>): MessageParam
  {
    MessageParam(Plain(FirstMessageText(tail)), User)
  }

  /** The whole run, given the stored state, the options, the histfile text and the service's replies. */
  function RunSession(stored: Option<HistoryState>, options: StayFocusedOptions, histfile: string, replies: seq<Response>): (r: Run)
    ensures 1 <= r.outcome.requests <= MaxRounds
    ensures r.outcome.Finished? ==> r.outcome.requests <= |replies|
    ensures var s := Prepared(Loaded(stored, options), histfile, options.tail);
      r.state.tail == s.tail && r.state.lastIndex == s.lastIndex && r.state.options == s.options
  {
    var s := Prepared(Loaded(stored, options), histfile, options.tail);
    RunKeepsWindow(s, [FirstMessage(s.tail)], replies, 0);
    RoundBudget(s, [FirstMessage(s.tail)], replies, 0);
    RunRounds(s, [FirstMessage(s.tail)], replies, 0)
  }

  /** What the run writes to the state file: the final state, or nothing when it aborted. */
  function Persisted(run: Run): Option<HistoryState>
  {
    if run.outcome.Finished? then Some(run.state) else None
  }

  /** `main`, with the files' contents, the options and the service's replies given. */
  method StayFocused(stored: Option<HistoryState>, options: StayFocusedOptions, histfile: string, replies: seq<Response>)
    returns (run: Run, written: Option<HistoryState>)
    ensures run == RunSession(stored, options, histfile, replies)
    ensures written == Persisted(run)
  {
    var actions := SelectActions(histfile, options.tail);
    var history: History;
    if stored.None? {
      history := new History.Default(options);
    } else {
      history := new History.Restore(stored.value);
    }
    history.ExtendTail(actions);
    var first := MessageParam(Plain("<histfile>\n" + Join(history.tail, "\n") + "\n</histfile>"), User);
    var messages, outcome := RunConversation(history, first, replies);
    run := Run(history.Value(), messages, outcome);
    written := if outcome.Finished? then Some(history.Value()) else None;
  }

  /**
   * After a run the window is the stored window merged with the newest
   * lines of the histfile, within the stored capacity, and the read cursor
   * is what it was; the run sends at most three requests.
   */
  lemma RunSessionWindow(stored: Option<HistoryState>, options: StayFocusedOptions, histfile: string, replies: seq<Response>)
    ensures var start, run := Loaded(stored, options), RunSession(stored, options, histfile, replies);
      run.state.tail == Merge(start.tail, TakeLast(SplitTerminator(histfile, '\n'), options.tail), start.options.tail) &&
      |run.state.tail| <= start.options.tail &&
      run.state.lastIndex == start.lastIndex &&
      1 <= run.outcome.requests <= MaxRounds
  {
    var s := Prepared(Loaded(stored, options), histfile, options.tail);
    RunKeepsWindow(s, [FirstMessage(s.tail)], replies, 0);
    RoundBudget(s, [FirstMessage(s.tail)], replies, 0);
  }

  /** The histfile of the scenario below splits into its three lines. */
  lemma ScenarioLines()
    ensures SplitTerminator("cd repo\ngrep TODO\nvim notes.md\n", '\n') == ["cd repo", "grep TODO", "vim notes.md"]
  {
    var lines := ["cd repo", "grep TODO", "vim notes.md"];
    assert Join(lines[2..], "\n") == "vim notes.md";
    assert Join(lines[1..], "\n") == "grep TODO" + "\n" + "vim notes.md";
    assert Join(lines, "\n") == "cd repo" + "\n" + ("grep TODO" + "\n" + "vim notes.md");
    assert Join(lines, "\n") + "\n" == "cd repo\ngrep TODO\nvim notes.md\n";
    SplitTerminatorOfLines(lines, '\n');
  }

  /**
   * A first run over three histfile lines, with a service that asks to set
   * the primary task and then ends its turn: the window holds the three
   * lines, the objective is set, two requests are sent and the state is written.
   */
  lemma SetTaskScenario()
    ensures var lines := ["cd repo", "grep TODO", "vim notes.md"];
      var setTask := ToolUseBlock("toolu_1", "set_primary_task", ToolInput(Some("Clean up TODOs"), None));
      var replies := [Response([ToolUse(setTask)], Some(ToolUseRequested)), Response([Text("Done.")], Some(EndTurn))];
      var run := RunSession(None, DefaultOptions, "cd repo\ngrep TODO\nvim notes.md\n", replies);
      run.state.tail == lines &&
      run.state.primaryObjective == Some("Clean up TODOs") &&
      run.state.sideQuests == None &&
      run.outcome == Finished(2) &&
      Persisted(run) == Some(run.state)
  {
    var lines := ["cd repo", "grep TODO", "vim notes.md"];
    ScenarioLines();
    var options := DefaultOptions;
    var start := HistoryState(lines, 0, None, None, options);
    assert Prepared(Loaded(None, options), "cd repo\ngrep TODO\nvim notes.md\n", 10) == start by {
      assert TakeLast(lines, 10) == lines;
      assert [] + lines == lines;
    }
    var setTask := ToolUseBlock("toolu_1", "set_primary_task", ToolInput(Some("Clean up TODOs"), None));
    var replies := [Response([ToolUse(setTask)], Some(ToolUseRequested)), Response([Text("Done.")], Some(EndTurn))];
    ScenarioRounds(start, [FirstMessage(lines)], setTask, replies);
  }

  /** The two rounds of the scenario above. */
  lemma ScenarioRounds(start: HistoryState, first: seq<MessageParam>, setTask: ToolUseBlock, replies: seq<Response>)
    requires setTask == ToolUseBlock("toolu_1", "set_primary_task", ToolInput(Some("Clean up TODOs"), None))
    requires replies == [Response([ToolUse(setTask)], Some(ToolUseRequested)), Response([Text("Done.")], Some(EndTurn))]
    ensures var run := RunRounds(start, first, replies, 0);
      run.state == start.(primaryObjective := Some("Clean up TODOs")) && run.outcome == Finished(2)
  {
    var effect := ToolEffect(start, "set_primary_task", setTask.input);
    var dispatched := DispatchAll(start, [ToolUse(setTask)]);
    assert [ToolUse(setTask)][1..] == [];
    assert DispatchAll(effect.1, []) == ([], effect.1);
    assert dispatched.1 == effect.1;
    var blocks := Normalize([ToolUse(setTask)]).value;
    var next := first + [MessageParam(Blocks(blocks), Assistant), MessageParam(Blocks(dispatched.0), User)];
    assert !HasServerToolUse(replies[0].content);
    assert !HasServerToolUse(replies[1].content);
    assert RunRounds(start, first, replies, 0) == RunRounds(effect.1, next, replies, 1);
  }
}
