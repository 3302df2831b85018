/**
 * The round verdict the bot reports after a settled round, and the final
 * win/loss tally it computes from the broker's profit table.
 */
module Tally {
  import opened Wrappers

  datatype Verdict = Win | Loss

  /** The verdict reported for a round with profit `pnl`. */
  function Label(pnl: real): (v: Verdict)
    ensures v == Win <==> pnl > 0.0
  {
    if pnl > 0.0 then Win else Loss
  }

  /** The profit of a profit-table transaction; a missing profit field reads as 0. */
  function ProfitOf(t: Option<real>): real
  {
    match t
    case Some(x) => x
    case None => 0.0
  }

  /** Transactions with a positive profit. */
  function Wins(ts: seq<Option<real>>): (n: nat)
    ensures n <= |ts|
  {
    if ts == [] then 0 else Wins(ts[..|ts| - 1]) + (if ProfitOf(ts[|ts| - 1]) > 0.0 then 1 else 0)
  }

  /** Transactions with a negative profit. */
  function Losses(ts: seq<Option<real>>): (n: nat)
    ensures n <= |ts|
  {
    if ts == [] then 0 else Losses(ts[..|ts| - 1]) + (if ProfitOf(ts[|ts| - 1]) < 0.0 then 1 else 0)
  }

  /** Transactions with a zero or missing profit: counted neither as a win nor as a loss. */
  function Flat(ts: seq<Option<real>>): nat
  {
    if ts == [] then 0 else Flat(ts[..|ts| - 1]) + (if ProfitOf(ts[|ts| - 1]) == 0.0 then 1 else 0)
  }

  /** Every transaction is exactly one of a win, a loss or flat. */
  lemma {:induction false} TallyPartition(ts: seq<Option<real>>)
    ensures Wins(ts) + Losses(ts) + Flat(ts) == |ts|
  {
    if ts != [] {
      TallyPartition(ts[..|ts| - 1]);
    }
  }

  /** The final tally counts a transaction as a win exactly when the round verdict would be Win. */
  lemma {:induction false} WinsAreLabelledWins(ts: seq<Option<real>>)
    ensures Wins(ts) == |set i | 0 <= i < |ts| && Label(ProfitOf(ts[i])) == Win|
  {
    if ts != [] {
      var p := ts[..|ts| - 1];
      WinsAreLabelledWins(p);
      var n := |ts| - 1;
      var before := set i | 0 <= i < n && Label(ProfitOf(p[i])) == Win;
      var after := set i | 0 <= i < |ts| && Label(ProfitOf(ts[i])) == Win;
      assert after == before + (if Label(ProfitOf(ts[n])) == Win then {n} else {});
    }
  }

  /** The final tally counts a transaction as a loss exactly when its profit is negative. */
  lemma {:induction false} LossesAreNegative(ts: seq<Option<real>>)
    ensures Losses(ts) == |set i | 0 <= i < |ts| && ProfitOf(ts[i]) < 0.0|
  {
    if ts != [] {
      var p := ts[..|ts| - 1];
      LossesAreNegative(p);
      var n := |ts| - 1;
      var before := set i | 0 <= i < n && ProfitOf(p[i]) < 0.0;
      var after := set i | 0 <= i < |ts| && ProfitOf(ts[i]) < 0.0;
      assert after == before + (if ProfitOf(ts[n]) < 0.0 then {n} else {});
    }
  }

  /** A transaction is flat, neither a win nor a loss, exactly when its profit is zero or missing. */
  lemma {:induction false} FlatAreZero(ts: seq<Option<real>>)
    ensures Flat(ts) == |set i | 0 <= i < |ts| && ProfitOf(ts[i]) == 0.0|
  {
    if ts != [] {
      var p := ts[..|ts| - 1];
      FlatAreZero(p);
      var n := |ts| - 1;
      var before := set i | 0 <= i < n && ProfitOf(p[i]) == 0.0;
      var after := set i | 0 <= i < |ts| && ProfitOf(ts[i]) == 0.0;
      assert after == before + (if ProfitOf(ts[n]) == 0.0 then {n} else {});
    }
  }

  /**
   * The final tally counts a transaction as a loss or as flat exactly when
   * the round verdict would be Loss: the verdict calls a zero profit a
   * Loss, the tally does not.
   */
  lemma {:induction false} LossesAreLabelledLossesOrFlat(ts: seq<Option<real>>)
    ensures Losses(ts) + Flat(ts) == |set i | 0 <= i < |ts| && Label(ProfitOf(ts[i])) == Loss|
  {
    if ts != [] {
      var p := ts[..|ts| - 1];
      LossesAreLabelledLossesOrFlat(p);
      var n := |ts| - 1;
      var before := set i | 0 <= i < n && Label(ProfitOf(p[i])) == Loss;
      var after := set i | 0 <= i < |ts| && Label(ProfitOf(ts[i])) == Loss;
      assert after == before + (if Label(ProfitOf(ts[n])) == Loss then {n} else {});
    }
  }

  /**
   * The two counts disagree on a zero or missing profit, in every profit
   * table: the round verdict calls it a Loss, while the final tally counts
   * it neither as a win nor as a loss.
   */
  lemma ZeroProfitIsLossButNotCountedAsLoss(ts: seq<Option<real>>, t: Option<real>)
    requires ProfitOf(t) == 0.0
    ensures Label(ProfitOf(t)) == Loss
    ensures Wins(ts + [t]) == Wins(ts) && Losses(ts + [t]) == Losses(ts)
    ensures Flat(ts + [t]) == Flat(ts) + 1
  {
    assert (ts + [t])[..|ts|] == ts;
  }
}
