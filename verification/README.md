# Decision core of a digit-trading bot

This project models the round loop of `simplederivbot2.py`, a bot that trades
"last digit" contracts on a broker's API. Each round the bot:

1. observes a last digit (0..9);
2. updates a ten-entry histogram `digit_counter` and a 10x10 transition-count
   matrix `transition_matrix`, keyed on the previously observed digit;
3. predicts the next digit as the arg-max of the matrix row of the digit just
   observed (ties go to the lowest digit, as NumPy's `argmax` does);
4. classifies the prediction: above 5 trades DIGITOVER with barrier 5, below 4
   trades DIGITUNDER with barrier 4, and 4 or 5 skips the round;
5. requests a proposal and buys it at the fixed stake `BET_AMOUNT`, then
   reads the latest profit from the profit table;
6. adds the profit to `total_pnl`, recomputes the balance, and stops the
   session at the take-profit or stop-loss level; at most `TOTAL_ROUNDS`
   rounds are played.

Everything the bot receives from outside in a round is one input value
(`Round.RoundInput`): the digit, and the broker's answers to the proposal,
buy and profit-table requests, each either a success, an API error, or an
answer with a missing field.

Files:

- `wrappers.dfy`: `Option`.
- `digits.dfy` (module `Digits`): the histogram and the transition matrix as
  functions of the observed digits, and what their entries add up to.
- `predictor.dfy` (module `Predictor`): arg-max with the lowest-index tie
  rule, and the prediction from a transition row.
- `band.dfy` (module `Band`): the over/under/skip classifier.
- `round.dfy` (module `Round`): the bot's state as a value (`Snapshot`: the
  digits observed, `digit_counter`, `transition_matrix` stored row by row as
  NumPy lays it out, `previous_digit`, `total_pnl` and the proposals sent),
  one round as the pure functions `RoundResult` and `Next`, and one session
  as the pure function `Play` of the round inputs, with lemmas about the
  counters, profit, stopping and the proposals sent.
- `tally.dfy` (module `Tally`): the per-round Win/Loss verdict and the final
  win and loss counts over the profit table.
- `slices.dfy` (module `Slices`): facts about sequence slices used by the
  proofs.
- `bot.dfy` (module `Bot`): class `Trader`, holding the histogram and the
  matrix as arrays updated in place, the previous digit, the balances and
  the cumulative profit. Its ghost field `model` is the same state as a
  `Round.Snapshot`, tied to the arrays entry by entry. Its round method and
  its loop are proved to follow `Round.Next` and `Round.Play` exactly, so
  every lemma about `Play` holds of the loop.

Behaviour of the loop in `simplederivbot2.py` worth knowing:

- The stop check runs only after a round that reached the profit-table
  request without an API error. Skipped rounds and rounds abandoned after a
  failed proposal, buy or profit-table call end with `continue` and are never
  checked.
- A profit table that is empty or has no profit field is not an abandoned
  round: the profit is unchanged, but the stop check still runs.
- An empty or missing transaction list raises an error that is not an
  `APIError`. Nothing catches it, so the session ends there (`Round.Raised`,
  status `Crashed`).
- Every proposal and buy uses the fixed stake `BET_AMOUNT` (lines 87, 106).
- `previous_digit` is set to the digit just observed before the prediction,
  so the branch that predicts the digit itself can never run; the prediction
  is always the arg-max of the row of the digit just observed
  (`Round.DecisionFromHistory`).

## Model

| member | source | states |
|---|---|---|
| `Digits.OccurrencesSnoc` | simplederivbot2.py:54 | the counting definition unfolded at one more digit: observing x adds one to x's count and leaves the other nine unchanged (the in-place update is `Bot.Trader.Observe`, its agreement with this count `Round.RecordKeepsTallied`) |
| `Digits.TransitionsSnoc` | simplederivbot2.py:55-57 | the transition-count definition unfolded at one more digit: observing x adds one to entry [previous, x] only, and nothing when there is no previous digit (used by `Round.RecordKeepsTallied`) |
| `Digits.CountsTotal` | simplederivbot2.py:21 | the histogram's ten entries add up to the number of digits observed |
| `Digits.RowTotal` | simplederivbot2.py:23-24 | row r of the matrix adds up to the number of times r occurred before the most recent digit |
| `Digits.MatrixTotal` | simplederivbot2.py:55-57 | the whole matrix adds up to n-1 after n digits (0 before any), so the first round leaves it all zeros |
| `Predictor.ArgMax` | simplederivbot2.py:66 | the index returned lies within the row (its first-maximum property is the next row) |
| `Predictor.ArgMaxIsFirstMax` | simplederivbot2.py:66 | the arg-max indexes the row, no entry exceeds it, and every entry before it is strictly smaller (the first maximum, as `np.argmax` returns) |
| `Predictor.ArgMaxIsTheFirstMax` | simplederivbot2.py:66 | an index is the first maximum of a row if and only if it is the one ArgMax returns |
| `Predictor.PredictedIsMostFrequent` | simplederivbot2.py:64-66 | the predicted digit is the most frequent successor of the digit just observed, the smallest one on a tie |
| `Predictor.UnseenPredictsZero` | simplederivbot2.py:64-66 | a digit never followed by anything has an all-zero row and predicts 0 |
| `Band.Classify` | simplederivbot2.py:71-79 | trades exactly the offered contract whose barrier the prediction lies strictly beyond (DIGITOVER/5 above, DIGITUNDER/4 below); 4 and 5, and only they, skip |
| `Round.Initial` | simplederivbot2.py:21-24 | the session starts with no digit observed, every histogram and matrix entry zero, no previous digit, no proposal and total_pnl zero (line 47), and these counters agree with the empty history |
| `Round.Record` | simplederivbot2.py:54-57 | observing a digit appends it to the history and makes it the previous digit, keeps the counters' shape, and leaves the profit and the proposals alone |
| `Round.RecordKeepsTallied` | simplederivbot2.py:54-57 | updating the counter, the matrix entry and the previous digit in place keeps them equal to the counts and transitions of the digits observed |
| `Round.DecisionFromHistory` | simplederivbot2.py:57-68 | the prediction always reads the row of the digit just observed, so the band is that of the most frequent successor of that digit |
| `Round.FirstSightingTradesUnder` | simplederivbot2.py:54-79 | a digit observed for the first time, including the session's first digit, leads to a DIGITUNDER proposal with barrier 4 |
| `Round.RoundResult` | simplederivbot2.py:71-136 | a round is skipped exactly when its band is 4 or 5; a rejected proposal or buy abandons it; with both accepted it is abandoned exactly when the profit-table call fails; a traded round with both accepted settles with exactly the reported profit, raises exactly when the transaction list is empty, and settles without a profit when the table or the profit field is missing; a settled round's profit is the one reported |
| `Round.Next` | simplederivbot2.py:54-126 | a round appends its digit to the history and makes it the previous digit, and adds at most one proposal after the earlier ones |
| `Round.StatusAfter` | simplederivbot2.py:139-141 | a skipped or abandoned round never ends the session; the session stops on the limits exactly after a settled round with take-profit or stop-loss reached, and crashes exactly after a round that raised |
| `Round.RoundEffect` | simplederivbot2.py:49-136 | every round records its digit; the profit changes only by a reported profit, and a traded round with both replies accepted adds exactly the reported profit (lines 123-124) or, on an empty transaction list, ends the session as crashed (line 122); skipped and abandoned rounds never end the session; exactly when the round is not skipped one proposal is requested, for the contract and barrier of the round's band, at the fixed stake |
| `Round.PlayAfterEnd` | simplederivbot2.py:139-141 | once the session has ended, later round inputs are never consumed |
| `Round.PlayEndsEarly` | simplederivbot2.py:139-141 | a session that ended after its first n inputs is the whole session |
| `Round.PlayShape` | simplederivbot2.py:49-57 | at most one round per input, all of them unless the session ended early; every round started records its digit; total_pnl is the sum of the reported profits |
| `Round.PlayEndings` | simplederivbot2.py:119-141 | a session that stopped on the limits stopped after a settled round with the take-profit or stop-loss level reached; a crashed one after a round that raised |
| `Round.PlayHalts` | simplederivbot2.py:96-141 | the session ends exactly at the first round that raised or was settled with the cumulative profit at a limit, and no earlier round met that condition |
| `Round.PlayProposals` | simplederivbot2.py:64-95 | the proposals of a session, in order, are exactly the bands of the most frequent successor of each digit observed, given the digits before it, one per round that was not skipped |
| `Round.PlayOrders` | simplederivbot2.py:84-95 | one proposal per round that was not skipped, each for an offered contract at BET_AMOUNT; earlier proposals are kept |
| `Round.PlayTallied` | simplederivbot2.py:54-57 | over a whole session the counters keep agreeing with the digits observed |
| `Round.CounterTotals` | simplederivbot2.py:21-24 | the histogram adds up to the digits observed, row r to the occurrences of r before the last digit, the matrix to one less than the digits observed |
| `Round.RoundsAreCounted` | simplederivbot2.py:49-57 | over a session the histogram gains one count per round started, skipped and abandoned rounds included, and the matrix total is the number of digits observed minus one |
| `Tally.Label` | simplederivbot2.py:128 | a round's verdict is Win exactly when its profit is strictly positive, Loss otherwise (zero included) |
| `Tally.Wins` | simplederivbot2.py:146 | the win count never exceeds the number of transactions |
| `Tally.Losses` | simplederivbot2.py:147 | the loss count never exceeds the number of transactions |
| `Tally.TallyPartition` | simplederivbot2.py:146-147 | every profit-table transaction is exactly one of win (profit > 0), loss (profit < 0) or neither |
| `Tally.WinsAreLabelledWins` | simplederivbot2.py:146 | the final win count is the number of transactions whose round verdict would be Win |
| `Tally.LossesAreNegative` | simplederivbot2.py:147 | the final loss count is the number of transactions with a negative profit |
| `Tally.FlatAreZero` | simplederivbot2.py:146-147 | the transactions counted neither as win nor as loss are exactly those with a zero or missing profit |
| `Tally.LossesAreLabelledLossesOrFlat` | simplederivbot2.py:147 | the number of transactions whose round verdict would be Loss is the final loss count plus the number with zero or no profit |
| `Tally.ZeroProfitIsLossButNotCountedAsLoss` | simplederivbot2.py:128 | for any list of transactions, appending one with zero or no profit gives a Loss verdict but leaves both the win and the loss counts unchanged |
| `Bot.Trader.constructor` | simplederivbot2.py:21-24 | all counters zero, no previous digit, no profit, balance equal to the initial balance |
| `Bot.Trader.Observe` | simplederivbot2.py:54-57 | the observed digit's count and the [previous, digit] entry go up by one in the arrays, nothing else changes, the digit becomes the previous digit |
| `Bot.Trader.Predict` | simplederivbot2.py:63-68 | the arg-max of the previous digit's row, or the digit itself when there is no previous digit |
| `Bot.Trader.PlayRound` | simplederivbot2.py:50-141 | the round ends and the state changes exactly as Round.RoundResult and Round.Next say, the stop check on balances agrees with Round.StatusAfter, and the balance stays initial balance plus total_pnl |
| `Bot.Trader.Run` | simplederivbot2.py:49-141 | the loop gives exactly the trace, final state and ending of Round.Play |

## Left out

- The broker client (authorization, balance, proposal, buy, profit table,
  session clear) is a foreign network library. Each answer is an input value,
  and `Bot.Trader.constructor` takes the initial balance it returned. A failed
  authorization or balance request, which ends the program before any round,
  is not modelled.
- The random digit generator is replaced by the digit in each round input.
  `Bot.Trader.Run` takes exactly `TOTAL_ROUNDS` inputs, one per possible
  round.
- The one-second wait before reading the profit and the asynchronous
  scheduling are not modelled.
- Console output, including the matrix dumps and the per-round verdict
  printout, is not modelled. The verdict itself is `Tally.Label`.
- Money is modelled as `real`, not floating point. The stop check is written
  on balances as in the source and proved equal to the check on `total_pnl`
  using exact arithmetic. Floating-point rounding is not modelled, and
  neither is a profit string that `float` cannot parse.
- The final statistics request: the model counts wins and losses over a
  given list of transaction profits (`Tally`). The request itself, its API
  error path and the final printout are not modelled. The list holds every
  transaction the broker reports, not only this session's rounds.
- The histogram, the matrix and the previous digit are module-level globals
  that live for the whole process. The model holds them in one `Trader`
  object, which is equivalent for the single session the program runs.
