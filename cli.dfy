/**
 * The line-editor helpers: command hints, tab completion of commands,
 * inline hints, and the Tab key handler. Text is a sequence of characters
 * and positions count characters.
 */
module Cli {
  import opened Wrappers
  import opened Arith

  /** A command (or hint) text and how much of it Tab may complete. */
  datatype CommandHint = CommandHint(display: string, completeUpTo: nat)

  /** The completable part lies within the text. */
  predicate WellFormed(h: CommandHint)
  {
    h.completeUpTo <= |h.display|
  }

  /**
   * `CommandHint::new`: the completable part is the given prefix of the
   * text; a caller passing anything else is stopped by an assertion.
   */
  function NewCommandHint(text: string, completeUpTo: string): (h: CommandHint)
    requires completeUpTo <= text
    ensures h.display == text && h.completeUpTo == |completeUpTo|
    ensures WellFormed(h) && h.display[..h.completeUpTo] == completeUpTo
  {
    CommandHint(text, |completeUpTo|)
  }

  /**
   * `CommandHint::suffix`: the hint with its first `strip` characters
   * removed, the completable part shrinking by as much, but not below zero.
   */
  function Suffix(h: CommandHint, strip: nat): (r: CommandHint)
    requires strip <= |h.display|
    ensures h.display == h.display[..strip] + r.display
    ensures r.completeUpTo == if strip <= h.completeUpTo then h.completeUpTo - strip else 0
    ensures WellFormed(h) ==> WellFormed(r)
  {
    CommandHint(h.display[strip..], SaturatingSub(h.completeUpTo, strip))
  }

  /** `Hint::completion`: the completable prefix, or nothing when it is empty. */
  function Completion(h: CommandHint): (r: Option<string>)
    requires WellFormed(h)
    ensures r.None? <==> h.completeUpTo == 0
    ensures r.Some? ==> r.value <= h.display && |r.value| == h.completeUpTo
  {
    if h.completeUpTo > 0 then Some(h.display[..h.completeUpTo]) else None
  }

  /** `Candidate::display` and `Hint::display`. */
  function Display(h: CommandHint): string
  {
    h.display
  }

  /** `Candidate::replacement`. */
  function Replacement(h: CommandHint): string
  {
    h.display
  }

  /**
   * A hint offered as a completion candidate shows and inserts its whole
   * text, of which its completion is the beginning.
   */
  lemma CandidateIsWholeHint(h: CommandHint)
    requires WellFormed(h)
    ensures Display(h) == h.display && Replacement(h) == h.display
    ensures Completion(h).Some? ==> Completion(h).value <= Replacement(h)
  {
  }

  /**
   * Stripping characters from a hint strips them from its completion: what
   * remains to complete is the rest of the old completion.
   */
  lemma SuffixCompletion(h: CommandHint, strip: nat)
    requires WellFormed(h) && strip <= |h.display|
    ensures strip < h.completeUpTo ==> Completion(Suffix(h, strip)) == Some(Completion(h).value[strip..])
    ensures h.completeUpTo <= strip ==> Completion(Suffix(h, strip)) == None
  {
    if strip < h.completeUpTo {
      var r := Suffix(h, strip);
      assert r.display[..r.completeUpTo] == h.display[strip..h.completeUpTo];
    }
  }

  /** The completer and hinter: the known commands and the fallback hints. */
  datatype ShellHelper = ShellHelper(commands: seq<CommandHint>, hints: seq<CommandHint>)

  /** The commands starting with `prefix`, each with `prefix` stripped, in list order. */
  function Candidates(commands: seq<CommandHint>, prefix: string): (r: seq<CommandHint>)
    ensures |r| <= |commands|
    ensures forall c :: c in r ==>
      exists k :: 0 <= k < |commands| && prefix <= commands[k].display && c == Suffix(commands[k], |prefix|)
    ensures forall k :: 0 <= k < |commands| && prefix <= commands[k].display ==>
      Suffix(commands[k], |prefix|) in r
    decreases |commands|
  {
    if commands == [] then []
    else
      var rest := Candidates(commands[1..], prefix);
      assert forall k :: 1 <= k < |commands| ==> commands[k] == commands[1..][k - 1];
      if prefix <= commands[0].display then [Suffix(commands[0], |prefix|)] + rest else rest
  }

  /** Candidates keep the order of the command list. */
  lemma {:induction false} CandidatesInOrder(first: seq<CommandHint>, second: seq<CommandHint>, prefix: string)
    ensures Candidates(first + second, prefix) == Candidates(first, prefix) + Candidates(second, prefix)
    decreases |first|
  {
    if first == [] {
      assert first + second == second;
    } else {
      assert (first + second)[0] == first[0];
      assert (first + second)[1..] == first[1..] + second;
      CandidatesInOrder(first[1..], second, prefix);
    }
  }

  /**
   * `Completer::complete`: completion starts at the cursor; each candidate
   * is the rest of a command that begins with the text before the cursor,
   * and every such command gives one.
   */
  function Complete(helper: ShellHelper, line: string, pos: nat): (r: (nat, seq<CommandHint>))
    requires pos <= |line|
    ensures r.0 == pos
    ensures forall c :: c in r.1 ==>
      exists k :: 0 <= k < |helper.commands| && helper.commands[k].display == line[..pos] + c.display
    ensures forall k :: 0 <= k < |helper.commands| && line[..pos] <= helper.commands[k].display ==>
      exists c :: c in r.1 && helper.commands[k].display == line[..pos] + c.display
  {
    var typed := line[..pos];
    var candidates := Candidates(helper.commands, typed);
    assert forall k :: 0 <= k < |helper.commands| && typed <= helper.commands[k].display ==>
      helper.commands[k].display == typed + Suffix(helper.commands[k], |typed|).display;
    (pos, candidates)
  }

  /** The first hint that begins with `line`, with `line` stripped. */
  function FirstHint(hints: seq<CommandHint>, line: string): (r: Option<CommandHint>)
    ensures r.None? <==> forall k :: 0 <= k < |hints| ==> !(line <= hints[k].display)
    ensures r.Some? ==>
      exists k :: (0 <= k < |hints| && line <= hints[k].display &&
        r.value == Suffix(hints[k], |line|) &&
        forall j :: 0 <= j < k ==> !(line <= hints[j].display))
    decreases |hints|
  {
    if hints == [] then None
    else if line <= hints[0].display then Some(Suffix(hints[0], |line|))
    else
      assert forall k :: 1 <= k < |hints| ==> hints[k] == hints[1..][k - 1];
      FirstHint(hints[1..], line)
  }

  /**
   * `Hinter::hint`, with the history hinter's answer given: nothing unless
   * the cursor is at the end of a non-empty line; then the history hint,
   * wholly completable, when there is one, else the first matching hint.
   */
  function Hint(helper: ShellHelper, line: string, pos: nat, historyHint: Option<string>): (r: Option<CommandHint>)
    requires pos <= |line|
    ensures line == [] || pos < |line| ==> r.None?
    ensures line != [] && pos == |line| && historyHint.Some? ==>
      r == Some(CommandHint(historyHint.value, |historyHint.value|))
    ensures line != [] && pos == |line| && historyHint.None? ==>
      (r.None? <==> forall k :: 0 <= k < |helper.hints| ==> !(line <= helper.hints[k].display))
  {
    if line == [] || pos < |line| then None
    else if historyHint.Some? then Some(NewCommandHint(historyHint.value, historyHint.value))
    else FirstHint(helper.hints, line)
  }

  /** Rust's `char::is_whitespace`: the Unicode `White_Space` characters. */
  predicate IsWhitespace(c: char)
  {
    ('\t' <= c <= '\r') || c == ' ' || c == '\U{85}' || c == '\U{A0}' || c == '\U{1680}' ||
    ('\U{2000}' <= c <= '\U{200A}') || c == '\U{2028}' || c == '\U{2029}' || c == '\U{202F}' ||
    c == '\U{205F}' || c == '\U{3000}'
  }

  /** The editor command a key handler may return instead of the default. */
  datatype Cmd = SelfInsert(repeat: nat, c: char)

  /**
   * `TabEventHandler::handle`: after whitespace Tab inserts a tab character
   * (`n` times); otherwise, and at the start of the line, it falls back to
   * completion.
   */
  function HandleTab(line: string, pos: nat, n: nat): (r: Option<Cmd>)
    requires pos <= |line|
    ensures r.Some? <==> 0 < pos && IsWhitespace(line[pos - 1])
    ensures r.Some? ==> r.value == SelfInsert(n, '\t')
  {
    var before := line[..pos];
    if |before| > 0 && IsWhitespace(before[|before| - 1]) then Some(SelfInsert(n, '\t')) else None
  }
}
