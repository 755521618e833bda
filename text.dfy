/**
 * String helpers from Rust's standard library that the focus tool relies on:
 * `[String]::join` and `str::split_terminator`. Strings are sequences of
 * characters.
 */
module Text {

  /** `piece` stands in `text` from position `at` on. */
  predicate OccursAt(text: string, at: nat, piece: string)
  {
    at + |piece| <= |text| && text[at..at + |piece|] == piece
  }

  /** A piece standing in the middle text still stands there with text around it. */
  lemma OccursInContext(before: string, middle: string, after: string, at: nat, piece: string)
    requires OccursAt(middle, at, piece)
    ensures OccursAt(before + middle + after, |before| + at, piece)
  {
    var whole := before + middle + after;
    assert whole[|before| + at..|before| + at + |piece|] == middle[at..at + |piece|];
  }

  /** What follows a prefix of the text stands right after it. */
  lemma OccursAfterPrefix(before: string, piece: string, text: string)
    requires before + piece <= text
    ensures OccursAt(text, |before|, piece)
  {
    assert text[|before|..|before| + |piece|] == (before + piece)[|before|..];
  }

  /** A piece standing in the closing part of a text stands in the text, shifted by what comes before. */
  lemma OccursInSuffix(text: string, closing: string, at: nat, piece: string)
    requires |closing| <= |text| && text[|text| - |closing|..] == closing
    requires OccursAt(closing, at, piece)
    ensures OccursAt(text, |text| - |closing| + at, piece)
  {
    var start := |text| - |closing|;
    assert text[start + at..start + at + |piece|] == closing[at..at + |piece|];
  }

  /** `parts.join(sep)`: the parts with `sep` between neighbours; "" for no parts. */
  function Join(parts: seq<string>, sep: string): string
  {
    if |parts| == 0 then ""
    else if |parts| == 1 then parts[0]
    else parts[0] + sep + Join(parts[1..], sep)
  }

  /** Joining one more part puts exactly one separator before it. */
  lemma {:induction false} JoinAppend(parts: seq<string>, last: string, sep: string)
    requires |parts| > 0
    ensures Join(parts + [last], sep) == Join(parts, sep) + sep + last
  {
    if |parts| == 1 {
      assert (parts + [last])[1..] == [last];
    } else {
      assert (parts + [last])[1..] == parts[1..] + [last];
      JoinAppend(parts[1..], last, sep);
    }
  }

  /** The joined text opens with the first part and closes with the last. */
  lemma {:induction false} JoinEnds(parts: seq<string>, sep: string)
    requires |parts| > 0
    ensures parts[0] <= Join(parts, sep)
    ensures var j, last := Join(parts, sep), parts[|parts| - 1];
      |last| <= |j| && j[|j| - |last|..] == last
    decreases |parts|
  {
    if |parts| > 1 {
      var rest := Join(parts[1..], sep);
      JoinEnds(parts[1..], sep);
      assert parts[1..][|parts| - 2] == parts[|parts| - 1];
      assert (parts[0] + sep + rest)[..|parts[0]|] == parts[0];
    }
  }

  /** Where the `i`-th part starts inside `Join(parts, sep)`. */
  function JoinOffset(parts: seq<string>, sep: string, i: nat): nat
    requires i < |parts|
  {
    if i == 0 then 0 else |parts[0]| + |sep| + JoinOffset(parts[1..], sep, i - 1)
  }

  /** Every part appears verbatim in the joined text, at its offset. */
  lemma {:induction false} JoinContainsPart(parts: seq<string>, sep: string, i: nat)
    requires i < |parts|
    ensures OccursAt(Join(parts, sep), JoinOffset(parts, sep, i), parts[i])
  {
    if i > 0 {
      JoinContainsPart(parts[1..], sep, i - 1);
      var rest := Join(parts[1..], sep);
      var k := JoinOffset(parts[1..], sep, i - 1);
      assert Join(parts, sep) == parts[0] + sep + rest;
      assert (parts[0] + sep + rest)[|parts[0]| + |sep| + k..|parts[0]| + |sep| + k + |parts[i]|]
          == rest[k..k + |parts[i]|];
    }
  }

  /** `s.split(d)`: the pieces between occurrences of `d`; always at least one piece. */
  function Split(s: string, d: char): (pieces: seq<string>)
    ensures |pieces| >= 1
    ensures forall i :: 0 <= i < |pieces| ==> d !in pieces[i]
  {
    if |s| == 0 then [""]
    else
      var rest := Split(s[1..], d);
      if s[0] == d then [""] + rest
      else [[s[0]] + rest[0]] + rest[1..]
  }

  /** Joining the pieces with the delimiter gives back the text. */
  lemma {:induction false} SplitJoin(s: string, d: char)
    ensures Join(Split(s, d), [d]) == s
  {
    if |s| > 0 {
      var rest := Split(s[1..], d);
      SplitJoin(s[1..], d);
      if s[0] == d {
        assert ([""] + rest)[1..] == rest;
        assert Join([""] + rest, [d]) == "" + [d] + Join(rest, [d]);
        assert s == [s[0]] + s[1..];
      } else {
        var pieces := [[s[0]] + rest[0]] + rest[1..];
        assert pieces[1..] == rest[1..];
        if |rest| == 1 {
          assert Join(pieces, [d]) == [s[0]] + rest[0];
        } else {
          assert Join(rest, [d]) == rest[0] + [d] + Join(rest[1..], [d]);
          assert Join(pieces, [d]) == ([s[0]] + rest[0]) + [d] + Join(rest[1..], [d]);
        }
        assert s == [s[0]] + s[1..];
      }
    }
  }

  /**
   * `s.split_terminator(d)`: like `Split`, except that the last piece is
   * dropped when it is empty, so a final delimiter ends the last line
   * instead of starting an empty one (and "" has no lines at all).
   */
  function SplitTerminator(s: string, d: char): (lines: seq<string>)
    ensures forall i :: 0 <= i < |lines| ==> d !in lines[i]
  {
    var pieces := Split(s, d);
    if pieces[|pieces| - 1] == "" then pieces[..|pieces| - 1] else pieces
  }

  /**
   * The lines of `SplitTerminator` put back together give the text: joined
   * with the delimiter, plus one final delimiter when the text ends in one.
   */
  lemma SplitTerminatorJoin(s: string, d: char)
    ensures s == [] <==> SplitTerminator(s, d) == []
    ensures |s| > 0 && s[|s| - 1] == d ==> Join(SplitTerminator(s, d), [d]) + [d] == s
    ensures |s| > 0 && s[|s| - 1] != d ==> Join(SplitTerminator(s, d), [d]) == s
  {
    var pieces := Split(s, d);
    var n := |pieces|;
    var last := pieces[n - 1];
    SplitJoin(s, d);
    if n == 1 {
      assert s == last;
    } else {
      assert pieces == pieces[..n - 1] + [last];
      JoinAppend(pieces[..n - 1], last, [d]);
      assert s == Join(pieces[..n - 1], [d]) + [d] + last;
      if last != "" {
        assert s[|s| - 1] == last[|last| - 1];
        assert last[|last| - 1] in last;
      }
    }
  }

  /** Text without the delimiter in front of `t` joins the first piece of `t`. */
  lemma {:induction false} SplitAfterPlainText(a: string, t: string, d: char)
    requires d !in a
    ensures Split(a + t, d) == [a + Split(t, d)[0]] + Split(t, d)[1..]
  {
    if a == [] {
      assert a + t == t;
      assert a + Split(t, d)[0] == Split(t, d)[0];
      assert Split(t, d) == [Split(t, d)[0]] + Split(t, d)[1..];
    } else {
      assert (a + t)[0] == a[0] && (a + t)[1..] == a[1..] + t;
      assert a == [a[0]] + a[1..];
      SplitAfterPlainText(a[1..], t, d);
      assert [a[0]] + (a[1..] + Split(t, d)[0]) == a + Split(t, d)[0];
    }
  }

  /** Splitting joined delimiter-free parts gives the parts back. */
  lemma {:induction false} SplitOfJoin(parts: seq<string>, d: char)
    requires |parts| > 0
    requires forall i :: 0 <= i < |parts| ==> d !in parts[i]
    ensures Split(Join(parts, [d]), d) == parts
  {
    if |parts| == 1 {
      SplitAfterPlainText(parts[0], "", d);
      assert parts[0] + "" == parts[0];
      assert parts == [parts[0]];
    } else {
      SplitOfJoin(parts[1..], d);
      var rest := Join(parts[1..], [d]);
      assert ([d] + rest)[0] == d && ([d] + rest)[1..] == rest;
      assert Split([d] + rest, d) == [""] + parts[1..];
      SplitAfterPlainText(parts[0], [d] + rest, d);
      assert parts[0] + "" == parts[0];
      assert Split(parts[0] + ([d] + rest), d) == [parts[0]] + parts[1..];
      assert Join(parts, [d]) == parts[0] + ([d] + rest);
      assert parts == [parts[0]] + parts[1..];
    }
  }

  /**
   * The converse of `SplitTerminatorJoin`: delimiter-free lines, each ended
   * by the delimiter, split back into the same lines.
   */
  lemma SplitTerminatorOfLines(lines: seq<string>, d: char)
    requires |lines| > 0
    requires forall i :: 0 <= i < |lines| ==> d !in lines[i]
    ensures SplitTerminator(Join(lines, [d]) + [d], d) == lines
  {
    var padded := lines + [""];
    forall i | 0 <= i < |padded|
      ensures d !in padded[i]
    {
      if i < |lines| {
        assert padded[i] == lines[i];
      }
    }
    JoinAppend(lines, "", [d]);
    assert Join(lines, [d]) + [d] + "" == Join(lines, [d]) + [d];
    SplitOfJoin(padded, d);
    assert padded[..|lines|] == lines;
  }

  /**
   * Lines merely separated by the delimiter, the last one not empty, also
   * split back into the same lines.
   */
  lemma SplitTerminatorOfSeparatedLines(lines: seq<string>, d: char)
    requires |lines| > 0 && lines[|lines| - 1] != ""
    requires forall i :: 0 <= i < |lines| ==> d !in lines[i]
    ensures SplitTerminator(Join(lines, [d]), d) == lines
  {
    SplitOfJoin(lines, d);
  }
}
