/**
 * The bot's next-digit predictor: the arg-max of the transition-matrix row
 * of the digit just observed, with ties going to the lowest index (the
 * convention of NumPy's `argmax`).
 */
module Predictor {
  import opened Digits

  /**
   * `k` is the first position of a maximal entry of `row`: no entry exceeds
   * `row[k]` and every entry before `k` is strictly smaller.
   */
  ghost predicate IsFirstMax(row: seq<int>, k: nat)
  {
    k < |row|
    && (forall j :: 0 <= j < |row| ==> row[j] <= row[k])
    && (forall j :: 0 <= j < k ==> row[j] < row[k])
  }

  /** The index NumPy's `argmax` returns for a non-empty row. */
  function ArgMax(row: seq<int>): (k: nat)
    requires |row| > 0
    ensures k < |row|
  {
    if |row| == 1 then 0
    else
      var k := ArgMax(row[..|row| - 1]);
      if row[k] < row[|row| - 1] then |row| - 1 else k
  }

  /** `ArgMax` returns the first position of a maximal entry. */
  lemma {:induction false} ArgMaxIsFirstMax(row: seq<int>)
    requires |row| > 0
    ensures IsFirstMax(row, ArgMax(row))
  {
    if |row| > 1 {
      var front := row[..|row| - 1];
      ArgMaxIsFirstMax(front);
      assert forall j :: 0 <= j < |front| ==> front[j] == row[j];
    }
  }

  /** A row has exactly one first maximum, and `ArgMax` finds it. */
  lemma ArgMaxIsTheFirstMax(row: seq<int>, k: nat)
    requires |row| > 0
    ensures IsFirstMax(row, k) <==> k == ArgMax(row)
  {
    ArgMaxIsFirstMax(row);
    if IsFirstMax(row, k) {
      var m := ArgMax(row);
      assert row[m] <= row[k] && row[k] <= row[m];
    }
  }

  /** Row `r` of the transition matrix after observing `h` (`transition_matrix[r]`). */
  function Row(h: seq<Digit>, r: Digit): (row: seq<int>)
    ensures |row| == Size
  {
    seq(Size, c requires 0 <= c < Size => Transitions(h, r, c))
  }

  /** The digit predicted to follow `d` once `h` has been observed. */
  function Predicted(h: seq<Digit>, d: Digit): Digit
  {
    ArgMax(Row(h, d))
  }

  /**
   * The prediction is the most frequent successor of `d` so far, the
   * smallest such digit on a tie.
   */
  lemma PredictedIsMostFrequent(h: seq<Digit>, d: Digit)
    ensures forall c: Digit :: Transitions(h, d, c) <= Transitions(h, d, Predicted(h, d))
    ensures forall c: Digit :: c < Predicted(h, d) ==> Transitions(h, d, c) < Transitions(h, d, Predicted(h, d))
  {
    var row := Row(h, d);
    ArgMaxIsFirstMax(row);
    assert forall c: Digit :: row[c] == Transitions(h, d, c);
  }

  /**
   * A digit that was never followed by anything (in particular the first
   * digit of the session, or any digit seen for the first time) has an
   * all-zero row, and then the prediction is 0.
   */
  lemma UnseenPredictsZero(h: seq<Digit>, d: Digit)
    requires Occurrences(Earlier(h), d) == 0
    ensures Predicted(h, d) == 0
  {
    RowTotal(h, d);
    RowSumZero(h, d, Size);
    PredictedIsMostFrequent(h, d);
    var p := Predicted(h, d);
    assert Transitions(h, d, 0) == 0 == Transitions(h, d, p);
  }
}
