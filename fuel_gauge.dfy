/** The colour of the fuel gauge bar. */
module FuelGauge {
  import opened Bands

  /** Red up to 20 %, yellow up to 50 %, green above. */
  function FuelColour(percentage: int): (c: Colour)
    ensures c == Red <==> percentage <= 20
    ensures c == Yellow <==> 20 < percentage <= 50
    ensures c == Green <==> percentage > 50
  {
    if percentage <= 20 then Red
    else if percentage <= 50 then Yellow
    else Green
  }

  /** A higher level never has a worse colour. */
  lemma FuelColourMonotone(p: int, q: int)
    requires p <= q
    ensures FuelColour(p) == Green ==> FuelColour(q) == Green
    ensures FuelColour(q) == Red ==> FuelColour(p) == Red
  {
  }
}
