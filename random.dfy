/** The script's use of `Math.random()`. A call is modelled as a value `r` that
    the caller supplies, a real number with 0 <= r < 1 (real arithmetic: the
    rounding of IEEE doubles is not modelled). */
module Random {

  predicate IsUnit(r: real) {
    0.0 <= r < 1.0
  }

  predicate AllUnit(rs: seq<real>) {
    forall i :: 0 <= i < |rs| ==> IsUnit(rs[i])
  }

  /** `Math.floor(r * n)`: an integer index in [0, n). */
  function UniformInt(r: real, n: nat): (k: int)
    requires IsUnit(r) && n > 0
    ensures 0 <= k < n
  {
    var m := n as real;
    var x := r * m;
    assert 0.0 <= x by { assert 0.0 <= r && 0.0 < m; }
    assert x < m by { assert m - x == (1.0 - r) * m; assert 1.0 - r > 0.0 && m > 0.0; }
    x.Floor
  }

  /** Every index in [0, n) is the outcome of some random value. */
  lemma UniformIntReaches(k: nat, n: nat)
    requires k < n
    ensures IsUnit(k as real / n as real)
    ensures UniformInt(k as real / n as real, n) == k
  {
  }

  /** `Math.floor(Math.random() * 45) + 1`, one lotto ball (script.js:43). */
  function LottoBall(r: real): (b: int)
    requires IsUnit(r)
    ensures 1 <= b <= 45
  {
    UniformInt(r, 45) + 1
  }

  /** `Math.floor(Math.random() * 5) + 1`, the pension group (script.js:53). */
  function PensionGroup(r: real): (g: int)
    requires IsUnit(r)
    ensures 1 <= g <= 5
  {
    UniformInt(r, 5) + 1
  }

  /** `Math.floor(Math.random() * 1000000)`, the pension serial (script.js:54). */
  function PensionSerial(r: real): (v: int)
    requires IsUnit(r)
    ensures 0 <= v <= 999999
  {
    UniformInt(r, 1000000)
  }
}
