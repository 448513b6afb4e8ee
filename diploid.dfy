/** A diploid locus: the fixed-size pair `double t[2]` / `double p[2]`
    of both variants. */
module Diploid {

  type Locus = s: seq<real> | |s| == 2 witness [0.0, 0.0]

  /** Both alleles set to the same value. */
  function Homozygous(x: real): (l: Locus)
    ensures l[0] == x && l[1] == x
  {
    [x, x]
  }

  /** The expressed value of a locus: the mean of its two alleles. */
  function Expressed(l: Locus): (e: real)
    ensures l[0] <= l[1] ==> l[0] <= e <= l[1]
    ensures l[1] <= l[0] ==> l[1] <= e <= l[0]
    ensures l[0] == l[1] ==> e == l[0]
  {
    0.5 * (l[0] + l[1])
  }

  function Abs(x: real): (r: real)
    ensures 0.0 <= r && (r == x || r == -x)
  {
    if x < 0.0 then -x else x
  }
}
