/**
 * The persisted focus state (`History` in the source): the history window,
 * the read cursor, the primary objective, the side quests and the options,
 * and the text it is rendered to for the model.
 */
module FocusState {
  import opened Wrappers
  import opened Text
  import opened Arith
  import opened Window
  import opened Messages

  /** Which histfile to tail and how many lines to tail and keep. */
  datatype StayFocusedOptions = StayFocusedOptions(histfile: string, tail: nat)

  /** The options used for flags not given on the command line. */
  const DefaultOptions := StayFocusedOptions(".histfile", 10)

  /** The value of a `History` object, as it is persisted. */
  datatype HistoryState = HistoryState(
    tail: seq<string>,
    lastIndex: nat,
    primaryObjective: Option<string>,
    sideQuests: Option<seq<string>>,
    options: StayFocusedOptions)

  /** The objective line of the rendered context; empty when no objective is set. */
  function ObjectiveLine(objective: Option<string>): string
  {
    match objective
    case Some(po) => "Primary objective: " + po + "\n"
    case None => ""
  }

  function Bullet(quest: string): string
  {
    "- " + quest + "\n"
  }

  /** One bullet line per quest, in order. */
  function Bullets(quests: seq<string>): string
  {
    if quests == [] then "" else Bullets(quests[..|quests| - 1]) + Bullet(quests[|quests| - 1])
  }

  /** The side-quest block: a heading and the bullets, only for a non-empty list. */
  function QuestSection(sideQuests: Option<seq<string>>): string
  {
    match sideQuests
    case Some(quests) => if quests == [] then "" else "Side quests:\n" + Bullets(quests)
    case None => ""
  }

  /** The history window between `<histfile>` tags. */
  function HistfileSection(tail: seq<string>): string
  {
    "<histfile>\n" + Join(tail, "\n") + "\n</histfile>\n"
  }

  /** The text of `History::as_content_block`. */
  function RenderContext(s: HistoryState): string
  {
    ObjectiveLine(s.primaryObjective) + QuestSection(s.sideQuests) + HistfileSection(s.tail)
  }

  /**
   * The text of the first user message of a session. It is built from the
   * window alone: neither the objective nor the side quests reach the model.
   */
  function FirstMessageText(tail: seq<string>): string
  {
    "<histfile>\n" + Join(tail, "\n") + "\n</histfile>"
  }

  class History {
    var tail: seq<string>
    var lastIndex: nat
    var primaryObjective: Option<string>
    var sideQuests: Option<seq<string>>
    var options: StayFocusedOptions

    function Value(): HistoryState
      reads this
    {
      HistoryState(tail, lastIndex, primaryObjective, sideQuests, options)
    }

    /** A state read back from its persisted form. */
    constructor Restore(s: HistoryState)
      ensures Value() == s
    {
      tail, lastIndex, primaryObjective, sideQuests, options :=
        s.tail, s.lastIndex, s.primaryObjective, s.sideQuests, s.options;
    }

    /** The state used when no state file exists yet. */
    constructor Default(options: StayFocusedOptions)
      ensures Value() == HistoryState([], 0, None, None, options)
    {
      tail, lastIndex, primaryObjective, sideQuests := [], 0, None, None;
      this.options := options;
    }

    /**
     * Appends the newly read lines to the window and cuts it from the front
     * to the persisted capacity `options.tail`.
     */
    method ExtendTail(actions: seq<string>)
      modifies this`tail
      ensures tail == Merge(old(tail), actions, options.tail)
      ensures |tail| <= options.tail
    {
      tail := tail + actions;
      tail := tail[SaturatingSub(|tail|, options.tail)..];
    }

    /** `History::as_content_block`: the rendered context as a text block. */
    method AsContentBlock() returns (block: MessageContentBlock)
      ensures block == TextPart(RenderContext(Value()))
    {
      var objectives := "";
      if primaryObjective.Some? {
        objectives := objectives + "Primary objective: ";
        objectives := objectives + primaryObjective.value;
        objectives := objectives + "\n";
      }
      ghost var objectiveLine := objectives;
      assert objectiveLine == ObjectiveLine(primaryObjective);
      if sideQuests.Some? {
        var quests := sideQuests.value;
        if |quests| != 0 {
          objectives := objectives + "Side quests:\n";
          objectives := AppendBullets(objectives, quests);
          assert objectives == objectiveLine + ("Side quests:\n" + Bullets(quests));
        }
      }
      assert objectives == objectiveLine + QuestSection(sideQuests);
      var histfile := "<histfile>\n" + Join(tail, "\n") + "\n</histfile>\n";
      block := TextPart(objectives + histfile);
    }
  }

  /** The quest loop of `History::as_content_block`: one bullet line per quest, in order. */
  method AppendBullets(text: string, quests: seq<string>) returns (r: string)
    ensures r == text + Bullets(quests)
  {
    r := text;
    assert quests[..0] == [];
    for i := 0 to |quests|
      invariant r == text + Bullets(quests[..i])
    {
      ghost var before := r;
      BulletsStep(quests, i);
      r := r + "- ";
      r := r + quests[i];
      r := r + "\n";
      assert r == before + Bullet(quests[i]);
    }
    assert quests[..|quests|] == quests;
  }

  /**
   * The rendered context begins with the objective line exactly when an
   * objective is set; otherwise it does not begin with the objective label.
   */
  lemma RenderStartsWithObjective(s: HistoryState)
    ensures s.primaryObjective.Some? ==>
      "Primary objective: " + s.primaryObjective.value + "\n" <= RenderContext(s)
    ensures s.primaryObjective.None? ==> !("Primary objective: " <= RenderContext(s))
  {
    var r := RenderContext(s);
    var rest := QuestSection(s.sideQuests) + HistfileSection(s.tail);
    assert r == ObjectiveLine(s.primaryObjective) + rest;
    if s.primaryObjective.None? {
      var first := if QuestSection(s.sideQuests) == "" then '<' else 'S';
      assert rest[0] == first;
      assert "Primary objective: "[0] == 'P';
    }
  }

  /** One more quest adds its bullet line at the end. */
  lemma BulletsStep(quests: seq<string>, i: nat)
    requires i < |quests|
    ensures Bullets(quests[..i + 1]) == Bullets(quests[..i]) + Bullet(quests[i])
  {
    assert quests[..i + 1][..i] == quests[..i];
  }

  /** The bullets of the first `k` quests begin the bullets of all of them. */
  lemma {:induction false} BulletsPrefix(quests: seq<string>, k: nat)
    requires k <= |quests|
    ensures Bullets(quests[..k]) <= Bullets(quests)
    decreases |quests|
  {
    if k < |quests| {
      var init := quests[..|quests| - 1];
      assert init[..k] == quests[..k];
      BulletsPrefix(init, k);
    } else {
      assert quests[..k] == quests;
    }
  }

  /** Where the bullet of quest `i` starts among the bullets. */
  function BulletOffset(quests: seq<string>, i: nat): nat
    requires i <= |quests|
  {
    |Bullets(quests[..i])|
  }

  /** Each quest appears verbatim as its own bullet line, in list order. */
  lemma BulletAt(quests: seq<string>, i: nat)
    requires i < |quests|
    ensures OccursAt(Bullets(quests), BulletOffset(quests, i), Bullet(quests[i]))
  {
    BulletsStep(quests, i);
    BulletsPrefix(quests, i + 1);
    OccursAfterPrefix(Bullets(quests[..i]), Bullet(quests[i]), Bullets(quests));
  }

  /** The rendered context of a state with quests, cut at the heading and at the bullets. */
  lemma QuestLayout(s: HistoryState)
    requires s.sideQuests.Some? && s.sideQuests.value != []
    ensures var line, bullets, h := ObjectiveLine(s.primaryObjective), Bullets(s.sideQuests.value), HistfileSection(s.tail);
      RenderContext(s) == line + "Side quests:\n" + (bullets + h) &&
      RenderContext(s) == (line + "Side quests:\n") + bullets + h
  {
  }

  /** With quests set, quest `i` stands as its own bullet line after the heading. */
  lemma QuestRendered(s: HistoryState, i: nat)
    requires s.sideQuests.Some? && i < |s.sideQuests.value|
    ensures OccursAt(RenderContext(s), |ObjectiveLine(s.primaryObjective)| + 13 + BulletOffset(s.sideQuests.value, i),
      Bullet(s.sideQuests.value[i]))
  {
    var quests := s.sideQuests.value;
    var intro := ObjectiveLine(s.primaryObjective) + "Side quests:\n";
    QuestLayout(s);
    BulletAt(quests, i);
    OccursInContext(intro, Bullets(quests), HistfileSection(s.tail), BulletOffset(quests, i), Bullet(quests[i]));
  }

  /**
   * The side-quest heading and one bullet line per quest follow the
   * objective line when the list is set and non-empty; otherwise the
   * objective line is followed directly by the history block.
   */
  lemma RenderListsQuests(s: HistoryState)
    ensures s.sideQuests.Some? && s.sideQuests.value != [] ==>
      var o := |ObjectiveLine(s.primaryObjective)|;
      OccursAt(RenderContext(s), o, "Side quests:\n") &&
      forall i :: 0 <= i < |s.sideQuests.value| ==>
        OccursAt(RenderContext(s), o + 13 + BulletOffset(s.sideQuests.value, i), Bullet(s.sideQuests.value[i]))
    ensures s.sideQuests.None? || s.sideQuests.value == [] ==>
      RenderContext(s) == ObjectiveLine(s.primaryObjective) + HistfileSection(s.tail)
  {
    if s.sideQuests.Some? && s.sideQuests.value != [] {
      var line := ObjectiveLine(s.primaryObjective);
      QuestLayout(s);
      OccursAfterPrefix(line, "Side quests:\n", RenderContext(s));
      EveryQuestRendered(s);
    }
  }

  /** With quests set, every quest stands as its own bullet line after the heading. */
  lemma EveryQuestRendered(s: HistoryState)
    requires s.sideQuests.Some?
    ensures forall i :: 0 <= i < |s.sideQuests.value| ==>
      OccursAt(RenderContext(s), |ObjectiveLine(s.primaryObjective)| + 13 + BulletOffset(s.sideQuests.value, i),
        Bullet(s.sideQuests.value[i]))
  {
    forall i | 0 <= i < |s.sideQuests.value|
      ensures OccursAt(RenderContext(s), |ObjectiveLine(s.primaryObjective)| + 13 + BulletOffset(s.sideQuests.value, i),
        Bullet(s.sideQuests.value[i]))
    {
      QuestRendered(s, i);
    }
  }

  /** The rendered context always ends with the history block, even for an empty window. */
  lemma RenderEndsWithHistfile(s: HistoryState)
    ensures var r, h := RenderContext(s), HistfileSection(s.tail);
      |h| <= |r| && r[|r| - |h|..] == h
  {
    var front := ObjectiveLine(s.primaryObjective) + QuestSection(s.sideQuests);
    assert RenderContext(s) == front + HistfileSection(s.tail);
  }

  /** Every window line stands verbatim in the history block that ends the rendered context. */
  lemma RenderEndsWithWindow(s: HistoryState, i: nat)
    requires i < |s.tail|
    ensures var r, h := RenderContext(s), HistfileSection(s.tail);
      |h| <= |r| && r[|r| - |h|..] == h &&
      OccursAt(r, |r| - |h| + 11 + JoinOffset(s.tail, "\n", i), s.tail[i])
  {
    var h := HistfileSection(s.tail);
    RenderEndsWithHistfile(s);
    JoinContainsPart(s.tail, "\n", i);
    OccursInContext("<histfile>\n", Join(s.tail, "\n"), "\n</histfile>\n", JoinOffset(s.tail, "\n", i), s.tail[i]);
    OccursInSuffix(RenderContext(s), h, 11 + JoinOffset(s.tail, "\n", i), s.tail[i]);
  }

  /**
   * The first message carries exactly what the rendered context of a state
   * without objective and side quests carries, minus its final newline.
   */
  lemma FirstMessageOmitsFocus(s: HistoryState)
    ensures FirstMessageText(s.tail) + "\n" == RenderContext(s.(primaryObjective := None, sideQuests := None))
    ensures s.primaryObjective.Some? || (s.sideQuests.Some? && s.sideQuests.value != []) ==>
      FirstMessageText(s.tail) + "\n" != RenderContext(s)
  {
    if s.primaryObjective.Some? || (s.sideQuests.Some? && s.sideQuests.value != []) {
      var t := s.(primaryObjective := None, sideQuests := None);
      if s.primaryObjective.Some? {
        assert |ObjectiveLine(s.primaryObjective)| > 0;
      } else {
        assert |QuestSection(s.sideQuests)| > 0;
      }
      assert |RenderContext(s)| > |RenderContext(t)|;
    }
  }
}
