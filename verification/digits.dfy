/**
 * Observation counters of the trading bot, as functions of the digit stream.
 *
 * The bot keeps a histogram `digit_counter` (ten entries) and a 10x10
 * transition-count matrix `transition_matrix`. After the bot has observed a
 * sequence `s` of last digits, entry `d` of the histogram is
 * `Occurrences(s, d)` and entry `[r, c]` of the matrix is
 * `Transitions(s, r, c)`. The lemmas here state what their totals are.
 */
module Digits {

  /** The last digit of a tick, the domain of every observation. */
  type Digit = x: int | 0 <= x < 10

  /** The number of digits: the histogram's length and the matrix's side (`matrix_size`). */
  const Size: nat := 10

  /** Everything observed before the most recent digit. */
  function Earlier(s: seq<Digit>): (e: seq<Digit>)
    ensures |e| == if s == [] then 0 else |s| - 1
    ensures s != [] ==> s == e + [s[|s| - 1]]
  {
    if s == [] then [] else s[..|s| - 1]
  }

  /** How often `d` occurs in `s`. */
  function Occurrences(s: seq<Digit>, d: Digit): nat
  {
    if s == [] then 0
    else Occurrences(s[..|s| - 1], d) + (if s[|s| - 1] == d then 1 else 0)
  }

  /** How often `r` is immediately followed by `c` in `s`. */
  function Transitions(s: seq<Digit>, r: Digit, c: Digit): nat
  {
    if |s| < 2 then 0
    else Transitions(s[..|s| - 1], r, c) + (if s[|s| - 2] == r && s[|s| - 1] == c then 1 else 0)
  }

  /** Observing one more digit `x` adds one to its own count and leaves the other counts alone. */
  lemma OccurrencesSnoc(s: seq<Digit>, x: Digit, d: Digit)
    ensures Occurrences(s + [x], d) == Occurrences(s, d) + (if x == d then 1 else 0)
  {
    assert (s + [x])[..|s|] == s;
  }

  /**
   * Observing one more digit `x` adds one to the transition from the digit
   * seen before it to `x`, and to no other transition; when nothing was seen
   * before, no transition changes.
   */
  lemma TransitionsSnoc(s: seq<Digit>, x: Digit, r: Digit, c: Digit)
    ensures Transitions(s + [x], r, c)
         == Transitions(s, r, c) + (if s != [] && s[|s| - 1] == r && x == c then 1 else 0)
  {
    assert (s + [x])[..|s|] == s;
  }

  /** The sum of the first `n` histogram entries. */
  function CountSum(s: seq<Digit>, n: nat): nat
    requires n <= Size
  {
    if n == 0 then 0 else CountSum(s, n - 1) + Occurrences(s, n - 1)
  }

  lemma {:induction false} CountSumSnoc(s: seq<Digit>, x: Digit, n: nat)
    requires n <= Size
    ensures CountSum(s + [x], n) == CountSum(s, n) + (if x < n then 1 else 0)
  {
    if n > 0 {
      CountSumSnoc(s, x, n - 1);
      OccurrencesSnoc(s, x, n - 1);
    }
  }

  lemma {:induction false} CountSumEmpty(n: nat)
    requires n <= Size
    ensures CountSum([], n) == 0
  {
    if n > 0 {
      CountSumEmpty(n - 1);
    }
  }

  /** The histogram's entries add up to the number of digits observed. */
  lemma {:induction false} CountsTotal(s: seq<Digit>)
    ensures CountSum(s, Size) == |s|
  {
    if s == [] {
      CountSumEmpty(Size);
    } else {
      var p := s[..|s| - 1];
      CountsTotal(p);
      CountSumSnoc(p, s[|s| - 1], Size);
      assert p + [s[|s| - 1]] == s;
    }
  }

  /** The sum of the first `n` entries of row `r` of the transition matrix. */
  function RowSum(s: seq<Digit>, r: Digit, n: nat): nat
    requires n <= Size
  {
    if n == 0 then 0 else RowSum(s, r, n - 1) + Transitions(s, r, n - 1)
  }

  lemma {:induction false} RowSumSnoc(s: seq<Digit>, x: Digit, r: Digit, n: nat)
    requires n <= Size
    ensures RowSum(s + [x], r, n)
         == RowSum(s, r, n) + (if s != [] && s[|s| - 1] == r && x < n then 1 else 0)
  {
    if n > 0 {
      RowSumSnoc(s, x, r, n - 1);
      TransitionsSnoc(s, x, r, n - 1);
    }
  }

  lemma {:induction false} RowSumEmpty(r: Digit, n: nat)
    requires n <= Size
    ensures RowSum([], r, n) == 0
  {
    if n > 0 {
      RowSumEmpty(r, n - 1);
    }
  }

  /**
   * Row `r` of the transition matrix adds up to the number of times `r` was
   * observed before the most recent digit: every such occurrence was followed
   * by exactly one digit.
   */
  lemma {:induction false} RowTotal(s: seq<Digit>, r: Digit)
    ensures RowSum(s, r, Size) == Occurrences(Earlier(s), r)
  {
    if s == [] {
      RowSumEmpty(r, Size);
    } else {
      var p, x := s[..|s| - 1], s[|s| - 1];
      assert p + [x] == s;
      RowTotal(p, r);
      RowSumSnoc(p, x, r, Size);
      if p != [] {
        OccurrencesSnoc(Earlier(p), p[|p| - 1], r);
      }
    }
  }

  /** A row whose entries add up to zero holds only zeros. */
  lemma {:induction false} RowSumZero(s: seq<Digit>, r: Digit, n: nat)
    requires n <= Size && RowSum(s, r, n) == 0
    ensures forall c: Digit :: c < n ==> Transitions(s, r, c) == 0
  {
    if n > 0 {
      RowSumZero(s, r, n - 1);
    }
  }

  /** The sum of the row totals of the first `n` rows of the transition matrix. */
  function MatrixSum(s: seq<Digit>, n: nat): nat
    requires n <= Size
  {
    if n == 0 then 0 else MatrixSum(s, n - 1) + RowSum(s, n - 1, Size)
  }

  lemma {:induction false} MatrixSumByRows(s: seq<Digit>, n: nat)
    requires n <= Size
    ensures MatrixSum(s, n) == CountSum(Earlier(s), n)
  {
    if n > 0 {
      MatrixSumByRows(s, n - 1);
      RowTotal(s, n - 1);
    }
  }

  /**
   * The whole transition matrix adds up to one less than the number of
   * digits observed (zero before the second digit): every digit but the
   * first contributes exactly one transition.
   */
  lemma MatrixTotal(s: seq<Digit>)
    ensures MatrixSum(s, Size) == if s == [] then 0 else |s| - 1
  {
    MatrixSumByRows(s, Size);
    CountsTotal(Earlier(s));
  }
}
