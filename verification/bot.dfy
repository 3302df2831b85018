/**
 * The bot's round loop, updating its counters in place.
 *
 * A `Trader` holds the digit histogram and the transition matrix as arrays,
 * the previously observed digit, the initial and current balance and the
 * cumulative profit. Its ghost field `model` is the same state as module
 * Round sees it; `Valid` ties the arrays to it entry by entry. The methods
 * are proved to follow the pure session: after `Run`, the model and the
 * rounds reported are exactly what `Round.Play` gives for the same inputs.
 */
module Bot {
  import opened Wrappers
  import opened Digits
  import opened Predictor
  import opened Band
  import opened Round
  import opened Slices

  class Trader {
    /** `digit_counter`: how often each digit has been observed. */
    const counts: array<int>
    /** `transition_matrix`: how often each digit has followed each other digit. */
    const transitions: array2<int>
    /** `previous_digit`: the digit observed last, `None` before the first. */
    var previous: Option<Digit>
    const initialBalance: real
    var currentBalance: real
    var totalPnl: real
    /** The proposal requests sent so far. */
    var orders: seq<Order>
    /** The accumulated state, as the pure session model sees it. */
    ghost var model: Snapshot

    ghost predicate Valid()
      reads this, counts, transitions
    {
      && counts.Length == Size
      && transitions.Length0 == Size && transitions.Length1 == Size
      && Shaped(model)
      && (forall d :: 0 <= d < Size ==> counts[d] == model.counts[d])
      && (forall r, c :: 0 <= r < Size && 0 <= c < Size ==> transitions[r, c] == model.matrix[Cell(r, c)])
      && previous == model.previous
      && totalPnl == model.pnl
      && orders == model.orders
      && currentBalance == initialBalance + totalPnl
    }

    /** A fresh session: all counters zero, nothing observed, no profit yet. */
    constructor (balance: real)
      ensures Valid() && fresh(counts) && fresh(transitions)
      ensures model == Initial()
      ensures initialBalance == balance && currentBalance == balance
    {
      counts := new int[Size](_ => 0);
      transitions := new int[Size, Size]((_, _) => 0);
      previous := None;
      initialBalance := balance;
      currentBalance := balance;
      totalPnl := 0.0;
      orders := [];
      model := Initial();
    }

    /**
     * Records digit `d`: its count goes up by one, and so does the
     * transition from the previous digit to `d` when there is a previous
     * digit; no other entry changes, and `d` becomes the previous digit.
     */
    method Observe(d: Digit)
      requires Valid()
      modifies this, counts, transitions
      ensures Valid()
      ensures model == Record(old(model), d)
      ensures currentBalance == old(currentBalance)
    {
      counts[d] := counts[d] + 1;
      if previous.Some? {
        transitions[previous.value, d] := transitions[previous.value, d] + 1;
      }
      previous := Some(d);
      model := Record(model, d);
    }

    /**
     * The prediction for the round that observed `digit`: the arg-max of the
     * transition row of the previous digit, or `digit` itself when there is
     * no previous digit.
     */
    method Predict(digit: Digit) returns (p: Digit)
      requires Valid()
      ensures p == Prediction(model, digit)
    {
      if previous.Some? {
        var r := previous.value;
        var row := seq(Size, c requires 0 <= c < Size reads transitions => transitions[r, c]);
        assert row == RowOf(model.matrix, r);
        p := ArgMax(row);
      } else {
        p := digit;
      }
    }

    /**
     * One round: observe the digit, predict, classify, and if the band
     * trades, request a proposal for the fixed stake, buy and read the
     * settled profit; then, unless the round was skipped or abandoned,
     * check the balance against the take-profit and stop-loss levels.
     * `status` says whether the session has to end after this round.
     */
    method PlayRound(inp: RoundInput) returns (e: RoundEnd, status: Status)
      requires Valid()
      modifies this, counts, transitions
      ensures Valid()
      ensures e == RoundResult(old(model), inp)
      ensures model == Next(old(model), inp)
      ensures status == StatusAfter(model.pnl, e)
    {
      Observe(inp.digit);
      var p := Predict(inp.digit);
      var band := Classify(p);
      match band {
        case Skip =>
          e := Skipped;
        case Trade(contract, barrier) =>
          orders := orders + [Order(contract, barrier, BetAmount)];
          model := model.(orders := orders);
          if inp.proposal != Accepted {
            e := Abandoned;
          } else if inp.buy != Accepted {
            e := Abandoned;
          } else {
            match inp.settlement {
              case SettleApiError =>
                e := Abandoned;
              case NoTable =>
                e := Settled(None);
              case NoTransactions =>
                e := Raised;
              case NoProfit =>
                e := Settled(None);
              case Profit(x) =>
                totalPnl := totalPnl + x;
                model := model.(pnl := totalPnl);
                currentBalance := initialBalance + totalPnl;
                e := Settled(Some(x));
            }
          }
      }
      if e.Raised? {
        status := Crashed;
      } else if e.Settled? && (currentBalance >= initialBalance + TakeProfit || initialBalance - currentBalance >= StopLoss) {
        status := LimitReached;
      } else {
        status := Running;
      }
    }

    /**
     * The session loop: at most `TotalRounds` rounds, one input each,
     * ending early after the first round that says so.
     */
    method Run(inputs: seq<RoundInput>) returns (trace: seq<RoundEnd>, status: Status)
      requires Valid()
      requires |inputs| == TotalRounds
      modifies this, counts, transitions
      ensures Valid()
      ensures Play(old(model), inputs) == Played(model, trace, status)
    {
      ghost var s0 := model;
      trace, status := [], Running;
      var round := 0;
      while round < TotalRounds
        invariant Valid()
        invariant 0 <= round <= TotalRounds
        invariant Play(s0, inputs[..round]) == Played(model, trace, status)
        invariant status == Running
      {
        PlayPrefixStep(s0, inputs, round);
        var e, st := PlayRound(inputs[round]);
        trace := trace + [e];
        round := round + 1;
        if st != Running {
          status := st;
          break;
        }
      }
      if status != Running {
        PlayEndsEarly(s0, inputs, round);
      } else {
        TakeAll(inputs);
      }
    }
  }
}
