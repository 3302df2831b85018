/**
 * One session of the bot as a pure function of its inputs.
 *
 * Everything the bot receives from outside in a round (the random last
 * digit, and the broker's answers to the proposal, buy and profit-table
 * requests) is one `RoundInput`. `RoundResult` says how a round ends,
 * `Next` gives the state after it, and `Play` runs rounds until the input
 * runs out or the session ends early. The class in module Bot is proved to
 * follow `Play` exactly.
 */
module Round {
  import opened Wrappers
  import opened Digits
  import opened Predictor
  import opened Band
  import opened Slices

  /** The round budget (`TOTAL_ROUNDS`). */
  const TotalRounds: nat := 25
  /** The fixed stake of every proposal and buy (`BET_AMOUNT`). */
  const BetAmount: int := 100
  const TakeProfit: real := 5000.0
  const StopLoss: real := 5000.0

  /** The broker's answer to a proposal or buy request. */
  datatype Reply =
    | ApiError   // the call raised an API error
    | MissingId  // the answer holds no (or an empty) proposal or contract id
    | Accepted

  /** The broker's answer to the profit-table request after the wait. */
  datatype Settlement =
    | SettleApiError   // the call raised an API error
    | NoTable          // the answer is empty or has no profit table
    | NoTransactions   // the table has no transaction list, or an empty one
    | NoProfit         // the latest transaction has no profit field
    | Profit(amount: real)

  datatype RoundInput = RoundInput(digit: Digit, proposal: Reply, buy: Reply, settlement: Settlement)

  /** A proposal request the bot sends: contract type, barrier and stake. */
  datatype Order = Order(contract: ContractType, barrier: Digit, stake: int)

  /** How a round ends. */
  datatype RoundEnd =
    | Skipped                        // the predicted digit is 4 or 5: no trade
    | Abandoned                      // a proposal, buy or profit-table call failed
    | Settled(profit: Option<real>)  // the profit table was read, with or without a profit
    | Raised                         // an error other than an API error escaped the loop

  /**
   * What the bot has accumulated: the digits observed (`history`, oldest
   * first), `digit_counter`, `transition_matrix`, `previous_digit`,
   * `total_pnl` and the proposal requests sent.
   */
  datatype Snapshot = Snapshot(
    history: seq<Digit>,
    counts: seq<int>,
    matrix: seq<int>,
    previous: Option<Digit>,
    pnl: real,
    orders: seq<Order>)

  /** Whether the session has to end after a round (`Running` once the budget is spent). */
  datatype Status = Running | LimitReached | Crashed

  /** A session: the final state, how each round ended, and why it stopped. */
  datatype Played = Played(state: Snapshot, trace: seq<RoundEnd>, status: Status)

  /** The histogram has ten entries and the matrix 10x10, stored row by row. */
  ghost predicate Shaped(s: Snapshot)
  {
    |s.counts| == Size && |s.matrix| == Size * Size
  }

  /** The position of entry `[r, c]` of the matrix in its row-by-row layout. */
  function Cell(r: Digit, c: Digit): (i: nat)
    ensures i < Size * Size
  {
    Size * r + c
  }

  /** Row `r` of a matrix stored row by row (`transition_matrix[r]`). */
  function RowOf(m: seq<int>, r: Digit): (row: seq<int>)
    requires |m| == Size * Size
    ensures |row| == Size
    ensures forall c: Digit :: row[c] == m[Cell(r, c)]
  {
    m[Cell(r, 0)..Cell(r, 0) + Size]
  }

  /**
   * The counters agree with the digits observed: every histogram entry is
   * the number of occurrences of its digit, every matrix entry the number of
   * times its row digit was followed by its column digit, and the previous
   * digit is the last one observed.
   */
  ghost predicate Tallied(s: Snapshot)
  {
    && Shaped(s)
    && (forall d :: 0 <= d < Size ==> s.counts[d] == Occurrences(s.history, d))
    && (forall r, c :: 0 <= r < Size && 0 <= c < Size ==> s.matrix[Cell(r, c)] == Transitions(s.history, r, c))
    && s.previous == (if s.history == [] then None else Some(s.history[|s.history| - 1]))
  }

  /** The state before any round: nothing observed, all counters zero, no profit. */
  function Initial(): (s: Snapshot)
    ensures Tallied(s)
    ensures s.history == [] && s.previous == None && s.pnl == 0.0 && s.orders == []
    ensures forall d :: 0 <= d < Size ==> s.counts[d] == 0
    ensures forall r, c :: 0 <= r < Size && 0 <= c < Size ==> s.matrix[Cell(r, c)] == 0
  {
    Snapshot([], seq(Size, _ => 0), seq(Size * Size, _ => 0), None, 0.0, [])
  }

  /**
   * Observing digit `d`: its histogram entry goes up by one, and so does
   * the matrix entry from the previous digit to `d` when there is one; `d`
   * becomes the previous digit.
   */
  function Record(s: Snapshot, d: Digit): (t: Snapshot)
    requires Shaped(s)
    ensures Shaped(t)
    ensures t.history == s.history + [d] && t.previous == Some(d)
    ensures t.pnl == s.pnl && t.orders == s.orders
  {
    var matrix :=
      match s.previous
      case Some(p) => s.matrix[Cell(p, d) := s.matrix[Cell(p, d)] + 1]
      case None => s.matrix;
    s.(history := s.history + [d], counts := s.counts[d := s.counts[d] + 1], matrix := matrix,
       previous := Some(d))
  }

  /** Recording a digit keeps the counters in agreement with the digits observed. */
  lemma RecordKeepsTallied(s: Snapshot, d: Digit)
    requires Tallied(s)
    ensures Tallied(Record(s, d))
  {
    var t := Record(s, d);
    forall x | 0 <= x < Size
      ensures t.counts[x] == Occurrences(t.history, x)
    {
      OccurrencesSnoc(s.history, d, x);
    }
    forall r, c | 0 <= r < Size && 0 <= c < Size
      ensures t.matrix[Cell(r, c)] == Transitions(t.history, r, c)
    {
      TransitionsSnoc(s.history, d, r, c);
    }
  }

  /**
   * The prediction made after recording `digit`: the arg-max of the row of
   * the previous digit, or `digit` itself when there is no previous digit.
   */
  function Prediction(s: Snapshot, digit: Digit): Digit
    requires Shaped(s)
  {
    match s.previous
    case Some(p) => ArgMax(RowOf(s.matrix, p))
    case None => digit
  }

  /** The band of the prediction made in a round that observes `digit` in state `s`. */
  function Decision(s: Snapshot, digit: Digit): Band
    requires Shaped(s)
  {
    Classify(Prediction(Record(s, digit), digit))
  }

  /**
   * Once `digit` is recorded there is always a previous digit, so the
   * prediction is the arg-max of the row of `digit` itself, and with
   * counters that agree with the digits observed it is the most frequent
   * successor of `digit` so far.
   */
  lemma DecisionFromHistory(s: Snapshot, digit: Digit)
    requires Tallied(s)
    ensures Decision(s, digit) == Classify(Predicted(s.history + [digit], digit))
  {
    RecordKeepsTallied(s, digit);
    var t := Record(s, digit);
    assert RowOf(t.matrix, digit) == Row(t.history, digit);
  }

  /**
   * A digit observed for the first time (in particular the first digit of a
   * session) has an all-zero transition row, is predicted to be followed by
   * 0, and so leads to a DIGITUNDER proposal with barrier 4.
   */
  lemma FirstSightingTradesUnder(s: Snapshot, digit: Digit)
    requires Tallied(s) && Occurrences(s.history, digit) == 0
    ensures Decision(s, digit) == Trade(DigitUnder, UnderBarrier)
  {
    DecisionFromHistory(s, digit);
    assert Earlier(s.history + [digit]) == s.history;
    UnseenPredictsZero(s.history + [digit], digit);
  }

  /**
   * How a round that observes `inp.digit` in state `s` ends: skipped when the
   * band is Skip; abandoned when the proposal or the buy fails or the
   * profit-table call raises an API error; raised when the table has no
   * transaction to read; settled otherwise, with the reported profit if
   * there is one.
   */
  function RoundResult(s: Snapshot, inp: RoundInput): (e: RoundEnd)
    requires Shaped(s)
    ensures e.Skipped? <==> Decision(s, inp.digit).Skip?
    ensures !e.Skipped? && inp.proposal == Accepted && inp.buy == Accepted ==>
      (e.Abandoned? <==> inp.settlement.SettleApiError?)
    ensures inp.proposal != Accepted || inp.buy != Accepted ==> e.Skipped? || e.Abandoned?
    ensures e.Raised? ==> inp.settlement.NoTransactions?
    ensures e.Settled? && e.profit.Some? ==> inp.settlement == Profit(e.profit.value)
    ensures !Decision(s, inp.digit).Skip? && inp.proposal == Accepted && inp.buy == Accepted ==>
      && (inp.settlement.Profit? ==> e == Settled(Some(inp.settlement.amount)))
      && (inp.settlement.NoTransactions? ==> e == Raised)
      && (inp.settlement.NoTable? || inp.settlement.NoProfit? ==> e == Settled(None))
  {
    match Decision(s, inp.digit)
    case Skip => Skipped
    case Trade(_, _) =>
      if inp.proposal != Accepted || inp.buy != Accepted then Abandoned
      else
        match inp.settlement
        case SettleApiError => Abandoned
        case NoTable => Settled(None)
        case NoTransactions => Raised
        case NoProfit => Settled(None)
        case Profit(x) => Settled(Some(x))
  }

  /** What a round adds to `total_pnl`. */
  function Gain(e: RoundEnd): real
  {
    match e
    case Settled(Some(x)) => x
    case _ => 0.0
  }

  /** The proposal a round with band `b` requests: none when it skips. */
  function Proposal(b: Band): seq<Order>
  {
    match b
    case Trade(c, barrier) => [Order(c, barrier, BetAmount)]
    case Skip => []
  }

  /**
   * The state after a round: the digit recorded, the profit of the round
   * added to `total_pnl`, and the proposal of the round's band appended.
   */
  function Next(s: Snapshot, inp: RoundInput): (t: Snapshot)
    requires Shaped(s)
    ensures Shaped(t)
    ensures t.history == s.history + [inp.digit] && t.previous == Some(inp.digit)
    ensures s.orders <= t.orders && |t.orders| <= |s.orders| + 1
  {
    var r := Record(s, inp.digit);
    r.(pnl := s.pnl + Gain(RoundResult(s, inp)), orders := s.orders + Proposal(Decision(s, inp.digit)))
  }

  /** The take-profit / stop-loss condition on the cumulative profit. */
  predicate StopReached(pnl: real)
  {
    pnl >= TakeProfit || -pnl >= StopLoss
  }

  /**
   * Whether the session goes on after a round that ended with `e` and
   * cumulative profit `pnl`: a skipped or abandoned round is never checked,
   * a settled one stops at either limit, and one that raised ends it.
   */
  function StatusAfter(pnl: real, e: RoundEnd): (st: Status)
    ensures e.Skipped? || e.Abandoned? ==> st == Running
    ensures st == LimitReached <==> e.Settled? && StopReached(pnl)
    ensures st == Crashed <==> e.Raised?
  {
    if e.Raised? then Crashed
    else if e.Settled? && StopReached(pnl) then LimitReached
    else Running
  }

  /** The session over the inputs of successive rounds, starting from `s`. */
  function Play(s: Snapshot, inputs: seq<RoundInput>): (p: Played)
    requires Shaped(s)
    ensures Shaped(p.state)
  {
    if inputs == [] then Played(s, [], Running)
    else
      var before := Play(s, inputs[..|inputs| - 1]);
      if before.status != Running then before
      else
        var inp := inputs[|inputs| - 1];
        var e := RoundResult(before.state, inp);
        var t := Next(before.state, inp);
        Played(t, before.trace + [e], StatusAfter(t.pnl, e))
  }

  function DigitsOf(inputs: seq<RoundInput>): (ds: seq<Digit>)
    ensures |ds| == |inputs|
    ensures forall i :: 0 <= i < |inputs| ==> ds[i] == inputs[i].digit
  {
    if inputs == [] then [] else DigitsOf(inputs[..|inputs| - 1]) + [inputs[|inputs| - 1].digit]
  }

  /** The total profit reported over a sequence of rounds. */
  function Gains(trace: seq<RoundEnd>): real
  {
    if trace == [] then 0.0 else Gains(trace[..|trace| - 1]) + Gain(trace[|trace| - 1])
  }

  /** The number of rounds in which a proposal was requested. */
  function Placed(trace: seq<RoundEnd>): nat
  {
    if trace == [] then 0
    else Placed(trace[..|trace| - 1]) + (if trace[|trace| - 1].Skipped? then 0 else 1)
  }

  /** Round `i` of `trace` ends the session, given the profit `pnl0` before the first round. */
  predicate HaltsAt(pnl0: real, trace: seq<RoundEnd>, i: nat)
    requires i < |trace|
  {
    trace[i].Raised? || (trace[i].Settled? && StopReached(pnl0 + Gains(trace[..i + 1])))
  }

  lemma GainsSnoc(trace: seq<RoundEnd>, e: RoundEnd)
    ensures Gains(trace + [e]) == Gains(trace) + Gain(e)
  {
    PrefixOfSnoc(trace, e);
  }

  /** Only the last round of `p` can end the session, and it does exactly when the session ended early. */
  ghost predicate EndsAtFirstHalt(pnl0: real, p: Played)
  {
    forall i :: 0 <= i < |p.trace| ==>
      (HaltsAt(pnl0, p.trace, i) <==> p.status != Running && i == |p.trace| - 1)
  }

  /**
   * What a single round does: it always records its digit; it changes the
   * profit only when the profit table reported a profit, and then by exactly
   * that profit, which a traded round always adds; a traded round whose
   * table has no transaction crashes the session; a round that skipped or was abandoned never ends the
   * session; a proposal is requested exactly when the prediction falls in a
   * trading band, always for the fixed stake.
   */
  lemma RoundEffect(s: Snapshot, inp: RoundInput)
    requires Shaped(s)
    ensures var e, t := RoundResult(s, inp), Next(s, inp);
      && t.history == s.history + [inp.digit]
      && t.pnl == s.pnl + Gain(e)
      && (Gain(e) != 0.0 ==> e == Settled(Some(Gain(e))))
      && (!Decision(s, inp.digit).Skip? && inp.proposal == Accepted && inp.buy == Accepted ==>
            && (inp.settlement.Profit? ==> t.pnl == s.pnl + inp.settlement.amount)
            && (inp.settlement.NoTransactions? ==> StatusAfter(t.pnl, e) == Crashed))
      && (e.Skipped? || e.Abandoned? ==> StatusAfter(t.pnl, e) == Running)
      && (e.Skipped? <==> Decision(s, inp.digit).Skip?)
      && |t.orders| == |s.orders| + (if e.Skipped? then 0 else 1)
      && t.orders[..|s.orders|] == s.orders
      && (!e.Skipped? ==>
            t.orders[|s.orders|].stake == BetAmount
            && IsOffered(Trade(t.orders[|s.orders|].contract, t.orders[|s.orders|].barrier))
            && t.orders[|s.orders|]
               == Order(Decision(s, inp.digit).contract, Decision(s, inp.digit).barrier, BetAmount))
  {
  }

  /** One more input either plays one more round or, once the session has ended, changes nothing. */
  lemma PlayStep(s: Snapshot, xs: seq<RoundInput>, inp: RoundInput)
    requires Shaped(s)
    ensures var before := Play(s, xs);
      Play(s, xs + [inp])
      == if before.status != Running then before
         else
           var e, t := RoundResult(before.state, inp), Next(before.state, inp);
           Played(t, before.trace + [e], StatusAfter(t.pnl, e))
  {
    assert (xs + [inp])[..|xs|] == xs;
  }

  /** `PlayStep` for the first `n + 1` inputs of a session. */
  lemma PlayPrefixStep(s: Snapshot, inputs: seq<RoundInput>, n: nat)
    requires Shaped(s) && n < |inputs|
    ensures var before := Play(s, inputs[..n]);
      Play(s, inputs[..n + 1])
      == if before.status != Running then before
         else
           var e, t := RoundResult(before.state, inputs[n]), Next(before.state, inputs[n]);
           Played(t, before.trace + [e], StatusAfter(t.pnl, e))
  {
    PlayStep(s, inputs[..n], inputs[n]);
    TakeOneMore(inputs, n);
  }

  /** Once the session has ended, later inputs are never consumed. */
  lemma {:induction false} PlayAfterEnd(s: Snapshot, xs: seq<RoundInput>, ys: seq<RoundInput>)
    requires Shaped(s) && Play(s, xs).status != Running
    ensures Play(s, xs + ys) == Play(s, xs)
  {
    if ys != [] {
      var zs := ys[..|ys| - 1];
      DropLastOfAppend(xs, ys);
      PlayAfterEnd(s, xs, zs);
    } else {
      AppendEmpty(xs, ys);
    }
  }

  /** A session that has ended after its first `n` inputs ignores the rest. */
  lemma PlayEndsEarly(s: Snapshot, inputs: seq<RoundInput>, n: nat)
    requires Shaped(s) && n <= |inputs| && Play(s, inputs[..n]).status != Running
    ensures Play(s, inputs) == Play(s, inputs[..n])
  {
    PlayAfterEnd(s, inputs[..n], inputs[n..]);
    SplitJoin(inputs, n);
  }

  /**
   * A session plays at most one round per input and all of them unless it
   * ended early; every round started records its digit, skipped and
   * abandoned rounds included; the cumulative profit is the starting profit
   * plus the profit reported in each round.
   */
  lemma {:induction false} PlayShape(s: Snapshot, inputs: seq<RoundInput>)
    requires Shaped(s)
    ensures var p := Play(s, inputs);
      && |p.trace| <= |inputs|
      && (p.status == Running ==> |p.trace| == |inputs|)
      && p.state.history == s.history + DigitsOf(inputs[..|p.trace|])
      && p.state.pnl == s.pnl + Gains(p.trace)
  {
    if inputs != [] {
      var xs, inp := inputs[..|inputs| - 1], inputs[|inputs| - 1];
      LastSplit(inputs);
      var before := Play(s, xs);
      PlayShape(s, xs);
      PlayStep(s, xs, inp);
      var n := |before.trace|;
      if before.status == Running {
        var e := RoundResult(before.state, inp);
        RoundEffect(before.state, inp);
        TakeAll(inputs);
        TakeAll(xs);
        PrefixOfSnoc(before.trace, e);
      } else {
        TakeOfTake(inputs, |xs|, n);
      }
    }
  }

  /** Why a session ended: for the profit limits after a settled round, or on an unexpected error. */
  lemma {:induction false} PlayEndings(s: Snapshot, inputs: seq<RoundInput>)
    requires Shaped(s)
    ensures var p := Play(s, inputs);
      p.status == LimitReached ==>
        p.trace != [] && p.trace[|p.trace| - 1].Settled? && StopReached(p.state.pnl)
    ensures var p := Play(s, inputs);
      p.status == Crashed ==> p.trace != [] && p.trace[|p.trace| - 1].Raised?
  {
    if inputs != [] {
      PlayEndings(s, inputs[..|inputs| - 1]);
    }
  }

  /**
   * The session ends exactly at the first round that either raised an
   * unexpected error or read the profit table with the cumulative profit at
   * the take-profit or stop-loss level; a round that was skipped or
   * abandoned is never checked.
   */
  lemma {:induction false} PlayHalts(s: Snapshot, inputs: seq<RoundInput>)
    requires Shaped(s)
    ensures EndsAtFirstHalt(s.pnl, Play(s, inputs))
  {
    if inputs != [] {
      var xs, inp := inputs[..|inputs| - 1], inputs[|inputs| - 1];
      LastSplit(inputs);
      PlayHalts(s, xs);
      PlayHaltsStep(s, xs, inp);
    }
  }

  lemma PlayHaltsStep(s: Snapshot, xs: seq<RoundInput>, inp: RoundInput)
    requires Shaped(s) && EndsAtFirstHalt(s.pnl, Play(s, xs))
    ensures EndsAtFirstHalt(s.pnl, Play(s, xs + [inp]))
  {
    var before := Play(s, xs);
    PlayStep(s, xs, inp);
    if before.status == Running {
      PlayShape(s, xs);
      HaltsAtExtended(s.pnl, before, RoundResult(before.state, inp), Next(before.state, inp));
    }
  }

  /**
   * A session that had not ended and plays one more round still ends at its
   * first halting round: the earlier rounds keep their verdict and the new
   * round halts exactly when its status says so.
   */
  lemma HaltsAtExtended(pnl0: real, before: Played, e: RoundEnd, t: Snapshot)
    requires EndsAtFirstHalt(pnl0, before) && before.status == Running
    requires before.state.pnl == pnl0 + Gains(before.trace)
    requires t.pnl == before.state.pnl + Gain(e)
    ensures EndsAtFirstHalt(pnl0, Played(t, before.trace + [e], StatusAfter(t.pnl, e)))
  {
    var trace := before.trace + [e];
    GainsSnoc(before.trace, e);
    forall i | 0 <= i < |trace|
      ensures HaltsAt(pnl0, trace, i) <==> StatusAfter(t.pnl, e) != Running && i == |trace| - 1
    {
      if i < |before.trace| {
        HaltsAtPrefix(pnl0, before.trace, e, i);
      } else {
        TakeAll(trace);
      }
    }
  }

  lemma HaltsAtPrefix(pnl0: real, trace: seq<RoundEnd>, e: RoundEnd, i: nat)
    requires i < |trace|
    ensures HaltsAt(pnl0, trace + [e], i) == HaltsAt(pnl0, trace, i)
  {
    assert (trace + [e])[..i + 1] == trace[..i + 1];
  }

  /**
   * The proposals of session `p`, which started with proposals `orders0`:
   * one more per round that was not skipped, each one of the two offered
   * contracts at the fixed stake, with the earlier proposals kept.
   */
  ghost predicate OrdersAccounted(orders0: seq<Order>, p: Played)
  {
    var orders := p.state.orders;
    && |orders| == |orders0| + Placed(p.trace)
    && orders[..|orders0|] == orders0
    && forall i :: |orders0| <= i < |orders| ==>
         orders[i].stake == BetAmount && IsOffered(Trade(orders[i].contract, orders[i].barrier))
  }

  /**
   * Every proposal the session requests is one of the two offered contracts
   * at the fixed stake, one per round that was not skipped; the proposals
   * requested before the session are kept.
   */
  lemma {:induction false} PlayOrders(s: Snapshot, inputs: seq<RoundInput>)
    requires Shaped(s)
    ensures OrdersAccounted(s.orders, Play(s, inputs))
  {
    if inputs != [] {
      var xs, inp := inputs[..|inputs| - 1], inputs[|inputs| - 1];
      LastSplit(inputs);
      PlayOrders(s, xs);
      PlayOrdersStep(s, xs, inp);
    }
  }

  lemma PlayOrdersStep(s: Snapshot, xs: seq<RoundInput>, inp: RoundInput)
    requires Shaped(s) && OrdersAccounted(s.orders, Play(s, xs))
    ensures OrdersAccounted(s.orders, Play(s, xs + [inp]))
  {
    var before := Play(s, xs);
    PlayStep(s, xs, inp);
    if before.status == Running {
      var e, t := RoundResult(before.state, inp), Next(before.state, inp);
      RoundEffect(before.state, inp);
      OrdersExtended(s.orders, before, e, t, StatusAfter(t.pnl, e));
    }
  }

  /** One more round keeps the proposals accounted for, given what a round does to them. */
  lemma OrdersExtended(orders0: seq<Order>, before: Played, e: RoundEnd, t: Snapshot, status: Status)
    requires OrdersAccounted(orders0, before)
    requires var n := |before.state.orders|;
      && |t.orders| == n + (if e.Skipped? then 0 else 1)
      && t.orders[..n] == before.state.orders
      && (!e.Skipped? ==>
            t.orders[n].stake == BetAmount && IsOffered(Trade(t.orders[n].contract, t.orders[n].barrier)))
    ensures OrdersAccounted(orders0, Played(t, before.trace + [e], status))
  {
    var n := |before.state.orders|;
    PrefixOfSnoc(before.trace, e);
    TakeOfTake(t.orders, n, |orders0|);
    forall i | |orders0| <= i < |t.orders|
      ensures t.orders[i].stake == BetAmount && IsOffered(Trade(t.orders[i].contract, t.orders[i].barrier))
    {
      if i < n {
        assert t.orders[i] == t.orders[..n][i];
      }
    }
  }

  /**
   * The proposals requested while observing the digits `ds` after the
   * history `h0`: for each digit whose prediction falls in a trading band,
   * the contract and barrier of the band of its most frequent successor
   * among all digits observed up to and including it, at the fixed stake.
   */
  function Proposals(h0: seq<Digit>, ds: seq<Digit>): seq<Order>
  {
    if ds == [] then []
    else Proposals(h0, ds[..|ds| - 1]) + Proposal(Classify(Predicted(h0 + ds, ds[|ds| - 1])))
  }

  /**
   * Session `p` extends the history of `s0`, and the proposals it added are
   * exactly `Proposals` of the digits it observed.
   */
  ghost predicate ProposalsMatch(s0: Snapshot, p: Played)
  {
    var h := p.state.history;
    && |s0.history| <= |h|
    && h[..|s0.history|] == s0.history
    && p.state.orders == s0.orders + Proposals(s0.history, h[|s0.history|..])
  }

  /**
   * Every proposal of a session is, in order, the band chosen from the
   * transition counts of the digits observed so far: one per round whose
   * most frequent successor lies outside 4..5.
   */
  lemma {:induction false} PlayProposals(s: Snapshot, inputs: seq<RoundInput>)
    requires Tallied(s)
    ensures ProposalsMatch(s, Play(s, inputs))
  {
    if inputs == [] {
      TakeAll(s.history);
      AppendEmpty(s.orders, []);
    } else {
      var xs, inp := inputs[..|inputs| - 1], inputs[|inputs| - 1];
      LastSplit(inputs);
      PlayProposals(s, xs);
      PlayProposalsStep(s, xs, inp);
    }
  }

  lemma PlayProposalsStep(s: Snapshot, xs: seq<RoundInput>, inp: RoundInput)
    requires Tallied(s) && ProposalsMatch(s, Play(s, xs))
    ensures ProposalsMatch(s, Play(s, xs + [inp]))
  {
    var before := Play(s, xs);
    PlayStep(s, xs, inp);
    if before.status == Running {
      PlayTallied(s, xs);
      DecisionFromHistory(before.state, inp.digit);
      var e, t := RoundResult(before.state, inp), Next(before.state, inp);
      ProposalsExtended(s, before, inp.digit, t, e, StatusAfter(t.pnl, e));
    }
  }

  lemma ProposalsSnoc(h0: seq<Digit>, ds: seq<Digit>, d: Digit)
    ensures Proposals(h0, ds + [d]) == Proposals(h0, ds) + Proposal(Classify(Predicted(h0 + (ds + [d]), d)))
  {
    PrefixOfSnoc(ds, d);
  }

  /** One more observed digit extends the proposals by the proposal of its band. */
  lemma ProposalsExtended(s0: Snapshot, before: Played, d: Digit, t: Snapshot, e: RoundEnd, status: Status)
    requires ProposalsMatch(s0, before)
    requires t.history == before.state.history + [d]
    requires t.orders == before.state.orders + Proposal(Classify(Predicted(before.state.history + [d], d)))
    ensures ProposalsMatch(s0, Played(t, before.trace + [e], status))
  {
    var h0, h := s0.history, before.state.history;
    var n := |h0|;
    var ds := h[n..];
    SplitJoin(h, n);
    DropOfSnoc(h, d, n);
    ProposalsSnoc(h0, ds, d);
    AppendAssoc(h0, ds, [d]);
    assert Proposals(h0, t.history[n..]) == Proposals(h0, ds) + Proposal(Classify(Predicted(h + [d], d)));
    TakeOfTake(t.history, |h|, n);
    PrefixOfSnoc(h, d);
    AppendAssoc(s0.orders, Proposals(h0, ds), Proposal(Classify(Predicted(h + [d], d))));
  }

  /** The counters keep agreeing with the digits observed over a whole session. */
  lemma {:induction false} PlayTallied(s: Snapshot, inputs: seq<RoundInput>)
    requires Tallied(s)
    ensures Tallied(Play(s, inputs).state)
  {
    if inputs != [] {
      var xs, inp := inputs[..|inputs| - 1], inputs[|inputs| - 1];
      LastSplit(inputs);
      var before := Play(s, xs);
      PlayTallied(s, xs);
      PlayStep(s, xs, inp);
      if before.status == Running {
        RecordKeepsTallied(before.state, inp.digit);
      }
    }
  }

  /** The sum of a sequence of integers. */
  function SumOf(xs: seq<int>): int
  {
    if xs == [] then 0 else SumOf(xs[..|xs| - 1]) + xs[|xs| - 1]
  }

  /** Sums add up over a concatenation. */
  lemma {:induction false} SumOfAppend(xs: seq<int>, ys: seq<int>)
    ensures SumOf(xs + ys) == SumOf(xs) + SumOf(ys)
  {
    if ys != [] {
      var zs := ys[..|ys| - 1];
      SumOfAppend(xs, zs);
      DropLastOfAppend(xs, ys);
    } else {
      AppendEmpty(xs, ys);
    }
  }

  lemma {:induction false} CountsPrefixSum(s: Snapshot, n: nat)
    requires Tallied(s) && n <= Size
    ensures SumOf(s.counts[..n]) == CountSum(s.history, n)
  {
    if n > 0 {
      CountsPrefixSum(s, n - 1);
      TakeOfTake(s.counts, n, n - 1);
    }
  }

  lemma {:induction false} RowPrefixSum(s: Snapshot, r: Digit, n: nat)
    requires Tallied(s) && n <= Size
    ensures SumOf(RowOf(s.matrix, r)[..n]) == RowSum(s.history, r, n)
  {
    if n > 0 {
      RowPrefixSum(s, r, n - 1);
      TakeOfTake(RowOf(s.matrix, r), n, n - 1);
    }
  }

  lemma {:induction false} MatrixPrefixSum(s: Snapshot, n: nat)
    requires Tallied(s) && n <= Size
    ensures SumOf(s.matrix[..Size * n]) == MatrixSum(s.history, n)
  {
    if n > 0 {
      MatrixPrefixSum(s, n - 1);
      var row := RowOf(s.matrix, n - 1);
      TakeRows(s.matrix, n);
      SumOfAppend(s.matrix[..Size * (n - 1)], row);
      RowPrefixSum(s, n - 1, Size);
      TakeAll(row);
    }
  }

  /**
   * With counters that agree with the digits observed, `digit_counter`
   * adds up to the number of digits observed, row `r` of
   * `transition_matrix` to the number of times `r` was observed before the
   * last digit, and the whole matrix to one less than the number of digits
   * observed (zero before any).
   */
  lemma CounterTotals(s: Snapshot)
    requires Tallied(s)
    ensures SumOf(s.counts) == |s.history|
    ensures forall r: Digit :: SumOf(RowOf(s.matrix, r)) == Occurrences(Earlier(s.history), r)
    ensures SumOf(s.matrix) == if s.history == [] then 0 else |s.history| - 1
  {
    CountsPrefixSum(s, Size);
    TakeAll(s.counts);
    CountsTotal(s.history);
    forall r: Digit
      ensures SumOf(RowOf(s.matrix, r)) == Occurrences(Earlier(s.history), r)
    {
      RowPrefixSum(s, r, Size);
      TakeAll(RowOf(s.matrix, r));
      RowTotal(s.history, r);
    }
    MatrixPrefixSum(s, Size);
    TakeAll(s.matrix);
    MatrixTotal(s.history);
  }

  /**
   * Over a session that starts with counters agreeing with the digits
   * observed, `digit_counter` gains exactly one count per round started
   * (skipped and abandoned rounds included), and `transition_matrix` one
   * entry per round started after the first digit ever observed.
   */
  lemma RoundsAreCounted(s: Snapshot, inputs: seq<RoundInput>)
    requires Tallied(s)
    ensures var p := Play(s, inputs);
      && SumOf(p.state.counts) == SumOf(s.counts) + |p.trace|
      && SumOf(p.state.matrix)
         == if s.history == [] && p.trace == [] then 0 else |s.history| + |p.trace| - 1
  {
    PlayShape(s, inputs);
    PlayTallied(s, inputs);
    CounterTotals(s);
    CounterTotals(Play(s, inputs).state);
  }

  /** The first `n` rows of a matrix stored row by row are its first `n - 1` rows and then row `n - 1`. */
  lemma TakeRows(m: seq<int>, n: nat)
    requires |m| == Size * Size && 0 < n <= Size
    ensures m[..Size * n] == m[..Size * (n - 1)] + RowOf(m, n - 1)
  {
  }
}
