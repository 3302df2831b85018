/**
 * The band classifier: the predicted digit chooses between a DIGITOVER
 * contract with barrier 5, a DIGITUNDER contract with barrier 4, or no
 * trade in this round.
 */
module Band {
  import opened Digits

  /** The two contract types the bot trades. */
  datatype ContractType = DigitOver | DigitUnder

  /** What a prediction leads to: a contract type with its barrier, or skipping the round. */
  datatype Band = Trade(contract: ContractType, barrier: Digit) | Skip

  const OverBarrier: Digit := 5
  const UnderBarrier: Digit := 4

  /**
   * A contract favours digit `d` when `d` lies strictly on the contract's
   * side of its barrier: above it for DIGITOVER, below it for DIGITUNDER.
   */
  predicate Favours(contract: ContractType, barrier: Digit, d: Digit)
  {
    match contract
    case DigitOver => d > barrier
    case DigitUnder => d < barrier
  }

  /** The two contracts the bot ever proposes. */
  predicate IsOffered(b: Band)
  {
    b == Trade(DigitOver, OverBarrier) || b == Trade(DigitUnder, UnderBarrier)
  }

  /**
   * The band of predicted digit `p`. The classification is total and
   * exclusive: it trades exactly when one of the two offered contracts
   * favours `p`, and then it trades that contract; no digit is favoured by
   * both; 4 and 5 are favoured by neither and skip the round.
   */
  function Classify(p: Digit): (b: Band)
    ensures b.Trade? ==> IsOffered(b) && Favours(b.contract, b.barrier, p)
    ensures Favours(DigitOver, OverBarrier, p) ==> b == Trade(DigitOver, OverBarrier)
    ensures Favours(DigitUnder, UnderBarrier, p) ==> b == Trade(DigitUnder, UnderBarrier)
    ensures b.Skip? <==> p == 4 || p == 5
  {
    if p > 5 then Trade(DigitOver, 5)
    else if p < 4 then Trade(DigitUnder, 4)
    else Skip
  }
}
