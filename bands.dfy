/**
  The classifiers the pages share: the PM band of a machine (overdue, due soon,
  fine), the operation block, and the low-stock test; plus the three display
  colours they map to.
 */
module Bands {
  import opened Constants

  datatype Colour = Red | Yellow | Green

  /** `isDue`: the reading has reached the due reading. */
  predicate IsDue(currentHm: int, nextPmDueHm: int)
  {
    currentHm >= nextPmDueHm
  }

  /** `isClose`: within the warning threshold before the due reading, and not yet due. */
  predicate IsClose(currentHm: int, nextPmDueHm: int)
  {
    currentHm >= nextPmDueHm - WarningThreshold && currentHm < nextPmDueHm
  }

  datatype PmBand = Critical | Warning | Fine

  /** The band a machine card is drawn in: due first, then close, else fine. */
  function Band(currentHm: int, nextPmDueHm: int): (b: PmBand)
    ensures b == Critical <==> currentHm >= nextPmDueHm
    ensures b == Warning <==> nextPmDueHm - 50 <= currentHm < nextPmDueHm
    ensures b == Fine <==> currentHm < nextPmDueHm - 50
  {
    if IsDue(currentHm, nextPmDueHm) then Critical
    else if IsClose(currentHm, nextPmDueHm) then Warning
    else Fine
  }

  /** The card border: red when due, yellow when close, green otherwise; each band its own colour. */
  function BandColour(b: PmBand): (c: Colour)
    ensures c == Red <==> b == Critical
    ensures c == Yellow <==> b == Warning
    ensures c == Green <==> b == Fine
  {
    match b
    case Critical => Red
    case Warning => Yellow
    case Fine => Green
  }

  /** A machine is never both due and close, so the card has exactly one band. */
  lemma DueAndCloseExclusive(currentHm: int, nextPmDueHm: int)
    ensures !(IsDue(currentHm, nextPmDueHm) && IsClose(currentHm, nextPmDueHm))
    ensures IsDue(currentHm, nextPmDueHm) <==> Band(currentHm, nextPmDueHm) == Critical
    ensures IsClose(currentHm, nextPmDueHm) <==> Band(currentHm, nextPmDueHm) == Warning
  {
  }

  /** The scheduled-PM button shows when the machine is due or close. */
  function ShowPmButton(currentHm: int, nextPmDueHm: int): (b: bool)
    ensures b <==> currentHm >= nextPmDueHm - 50
    ensures b <==> Band(currentHm, nextPmDueHm) != Fine
  {
    IsDue(currentHm, nextPmDueHm) || IsClose(currentHm, nextPmDueHm)
  }

  /** `isBlocked`: more than the block threshold past the due reading. */
  function IsBlocked(currentHm: int, nextPmDueHm: int): (blocked: bool)
    ensures blocked <==> currentHm - nextPmDueHm >= 16
    ensures blocked ==> IsDue(currentHm, nextPmDueHm)
  {
    currentHm > nextPmDueHm + BlockThreshold
  }

  /** A blocked machine is overdue; the block starts at 16 h past due, 15 h past due still runs. */
  lemma BlockBoundary(nextPmDueHm: int)
    ensures !IsBlocked(nextPmDueHm + 15, nextPmDueHm)
    ensures IsBlocked(nextPmDueHm + 16, nextPmDueHm)
    ensures forall currentHm :: IsBlocked(currentHm, nextPmDueHm) ==> Band(currentHm, nextPmDueHm) == Critical
  {
  }

  const LowStockLimit: int := 10

  /** The low-stock test of the inventory badge, the dashboard and the notifications. */
  predicate IsLowStock(stock: int)
  {
    stock < LowStockLimit
  }
}
