/**
 * The bounded history window: the persisted tail of shell-history lines is
 * extended with the newly read lines and cut from the front to the
 * configured capacity (`Vec::extend` followed by `split_off` at
 * `len.saturating_sub(cap)`).
 */
module Window {
  import opened Arith

  /** The last `n` elements of `xs`, or all of them when there are fewer. */
  function TakeLast<T>(xs: seq<T>, n: nat): (r: seq<T>)
    ensures |r| == if |xs| <= n then |xs| else n
    ensures r == xs[|xs| - |r|..]
  {
    xs[SaturatingSub(|xs|, n)..]
  }

  /** The window after `incoming` lines are merged into `window` under capacity `cap`. */
  function Merge<T>(window: seq<T>, incoming: seq<T>, cap: nat): (r: seq<T>)
    ensures |r| <= cap && |r| <= |window + incoming|
    ensures r == (window + incoming)[|window + incoming| - |r|..]
    ensures |window| + |incoming| <= cap ==> r == window + incoming
  {
    TakeLast(window + incoming, cap)
  }

  /**
   * The merged window is the trailing part of old-then-new, order kept: its
   * length is the smaller of the total and the capacity, and its `i`-th line
   * is the matching line of `window + incoming`.
   */
  lemma MergeIsTrailingPart<T>(window: seq<T>, incoming: seq<T>, cap: nat)
    ensures |Merge(window, incoming, cap)| <= cap
    ensures |Merge(window, incoming, cap)| == if |window| + |incoming| <= cap then |window| + |incoming| else cap
    ensures forall i :: 0 <= i < |Merge(window, incoming, cap)| ==>
      Merge(window, incoming, cap)[i] == (window + incoming)[|window| + |incoming| - |Merge(window, incoming, cap)| + i]
  {
  }

  /** Merging no lines into a window within capacity leaves it as it was. */
  lemma MergeNothing<T>(window: seq<T>, cap: nat)
    requires |window| <= cap
    ensures Merge(window, [], cap) == window
  {
    assert window + [] == window;
  }

  /** All new lines survive a merge when there are at most `cap` of them; they end the window. */
  lemma MergeKeepsFreshLines<T>(window: seq<T>, incoming: seq<T>, cap: nat)
    requires |incoming| <= cap
    ensures |incoming| <= |Merge(window, incoming, cap)|
    ensures Merge(window, incoming, cap)[|Merge(window, incoming, cap)| - |incoming|..] == incoming
  {
    var m := Merge(window, incoming, cap);
    var all := window + incoming;
    assert all[|all| - |incoming|..] == incoming;
    assert m == all[|all| - |m|..];
    assert m[|m| - |incoming|..] == all[|all| - |incoming|..];
  }

  /** Two merges in a row equal one merge of both batches. */
  lemma MergeTwice<T>(window: seq<T>, a: seq<T>, b: seq<T>, cap: nat)
    ensures Merge(Merge(window, a, cap), b, cap) == Merge(window, a + b, cap)
  {
    var all := window + a + b;
    var first := Merge(window, a, cap);
    assert window + (a + b) == all;
    assert first == (window + a)[|window + a| - |first|..];
    assert all == (window + a) + b;
    assert first + b == all[|all| - |first| - |b|..];
    var r := TakeLast(first + b, cap);
    assert r == (first + b)[|first + b| - |r|..];
    assert |r| == |TakeLast(all, cap)|;
  }

  /** The window after merging each batch of `batches` in turn. */
  function MergeEach<T>(window: seq<T>, batches: seq<seq<T>>, cap: nat): seq<T>
    decreases |batches|
  {
    if batches == [] then window
    else MergeEach(Merge(window, batches[0], cap), batches[1..], cap)
  }

  /** All lines of all batches, oldest batch first. */
  function Flatten<T>(batches: seq<seq<T>>): seq<T>
  {
    if batches == [] then [] else batches[0] + Flatten(batches[1..])
  }

  /**
   * After any sequence of merges the window holds exactly the last `cap`
   * lines ever seen, in the order they were seen; in particular it never
   * exceeds the capacity.
   */
  lemma {:induction false} MergeEachIsTrailingWindow<T>(window: seq<T>, batches: seq<seq<T>>, cap: nat)
    requires |window| <= cap
    ensures MergeEach(window, batches, cap) == Merge(window, Flatten(batches), cap)
    ensures |MergeEach(window, batches, cap)| <= cap
    decreases |batches|
  {
    if batches == [] {
      MergeNothing(window, cap);
    } else {
      var next := Merge(window, batches[0], cap);
      MergeEachIsTrailingWindow(next, batches[1..], cap);
      MergeTwice(window, batches[0], Flatten(batches[1..]), cap);
    }
  }
}
