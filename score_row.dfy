/** `SliderRow`: a horizontal slider over a fixed list of options that reports
    the selected option upward and highlights the item under the cursor. */
module ScoreRow {

  /** The `WSJFScore` union type. */
  predicate IsScore(v: int) {
    v == 1 || v == 2 || v == 3 || v == 5 || v == 8 || v == 13 || v == 21
  }

  type Score = v: int | IsScore(v) witness 1

  /** The options every row is given, in display order. */
  const WSJFScores: seq<Score> := [1, 2, 3, 5, 8, 13, 21]

  datatype Option<T> = None | Some(value: T)

  /** `options[currentXPosition]`, the value handed to `onNewValue`; outside the
      list JavaScript yields `undefined`, here `None`. */
  function ReportedValue<T>(options: seq<T>, position: int): (r: Option<T>)
    ensures r.Some? <==> 0 <= position < |options|
    ensures r.Some? ==> r.value in options
  {
    if 0 <= position < |options| then Some(options[position]) else None
  }

  /** The slot of a score in the options list: the inverse of the lookup. */
  function PositionOf(v: Score): (i: nat)
    ensures i < |WSJFScores|
  {
    if v == 1 then 0
    else if v == 2 then 1
    else if v == 3 then 2
    else if v == 5 then 3
    else if v == 8 then 4
    else if v == 13 then 5
    else 6
  }

  /** Every score lies between 1 and 21; in particular a score is never 0. */
  lemma ScoreBounds(v: Score)
    ensures 1 <= v <= 21
  {
    assert IsScore(v);
  }

  /** The options list holds exactly the members of the union type. */
  lemma ScoresListed(v: int)
    ensures IsScore(v) <==> v in WSJFScores
  {
    if IsScore(v) {
      assert WSJFScores[PositionOf(v)] == v;
    }
  }

  /** The options are listed in strictly increasing order, so two slots never
      report the same value. */
  lemma ScoresIncreasing(i: int, j: int)
    requires 0 <= i < j < |WSJFScores|
    ensures WSJFScores[i] < WSJFScores[j]
  {
  }

  /** A row over the options, at an in-range slot, reports a score; outside
      the list it reports nothing. */
  lemma ReportedScore(position: int)
    ensures 0 <= position < |WSJFScores| <==> ReportedValue(WSJFScores, position).Some?
    ensures 0 <= position < |WSJFScores| ==> IsScore(ReportedValue(WSJFScores, position).value)
  {
  }

  /** Lookup and `PositionOf` are inverse to each other: every score is
      reported by exactly one slot. */
  lemma ReportRoundTrip(v: Score, position: int)
    ensures ReportedValue(WSJFScores, PositionOf(v)) == Some(v)
    ensures 0 <= position < |WSJFScores| ==> PositionOf(WSJFScores[position]) == position
  {
    assert IsScore(v);
  }

  /** Item `i` is drawn highlighted exactly when it is under the cursor. */
  predicate IsHighlighted(position: int, i: int) {
    position == i
  }

  /** The highlighted items among the `n` drawn. */
  function HighlightedItems(n: nat, position: int): set<int> {
    set i | 0 <= i < n && IsHighlighted(position, i)
  }

  /** Exactly one item of a row is highlighted when the cursor is on the row's
      items, and none otherwise. */
  lemma ExactlyOneHighlighted(n: nat, position: int)
    ensures 0 <= position < n ==> HighlightedItems(n, position) == {position}
    ensures |HighlightedItems(n, position)| == 1 <==> 0 <= position < n
  {
    if 0 <= position < n {
      assert position in HighlightedItems(n, position);
      assert HighlightedItems(n, position) == {position};
    } else {
      assert HighlightedItems(n, position) == {};
    }
  }
}
