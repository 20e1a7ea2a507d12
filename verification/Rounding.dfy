/** Python's `round`: to the nearest integer, halves to the even one. */
module Rounding {

  function Round(x: real): int {
    var f := x.Floor;
    var d := x - f as real;
    if d < 0.5 then f
    else if d > 0.5 then f + 1
    else if f % 2 == 0 then f else f + 1
  }

  lemma RoundIsNearest(x: real)
    ensures x - 0.5 <= Round(x) as real <= x + 0.5
  {
  }

  lemma RoundTiesToEven(x: real)
    ensures x - x.Floor as real == 0.5 ==> Round(x) % 2 == 0
  {
  }

  lemma RoundMonotone(x: real, y: real)
    requires x <= y
    ensures Round(x) <= Round(y)
  {
    RoundIsNearest(x);
    RoundIsNearest(y);
    if x.Floor != y.Floor {
      FloorStep(x, y);
    }
  }

  lemma FloorStep(x: real, y: real)
    requires x <= y && x.Floor != y.Floor
    ensures x.Floor + 1 <= y.Floor
  {
  }

  lemma RoundOfInteger(n: int)
    ensures Round(n as real) == n
  {
  }
}
