/** The largest fall of an equity curve, found in one pass. */
module Drawdown {

  /** The fall from an earlier point to a later one. */
  function Fall(curve: seq<real>, i: nat, j: nat): real
    requires i < |curve| && j < |curve|
  {
    curve[i] - curve[j]
  }

  /** That fall as a fraction of where it started; zero from a start that is not positive. */
  function FallPct(curve: seq<real>, i: nat, j: nat): real
    requires i < |curve| && j < |curve|
  {
    if curve[i] > 0.0 then Fall(curve, i, j) / curve[i] else 0.0
  }

  /** `i` and `j` bound a largest fall. */
  ghost predicate LargestFall(curve: seq<real>, i: nat, j: nat) {
    && i <= j < |curve|
    && forall k, l :: 0 <= k <= l < |curve| ==> Fall(curve, k, l) <= Fall(curve, i, j)
  }

  /** The absolute drawdown is the largest fall; the percentage is taken where that fall is attained. */
  method MaxDrawdown(curve: seq<real>) returns (maxDd: real, maxDdPct: real)
    ensures |curve| < 2 ==> maxDd == 0.0 && maxDdPct == 0.0
    ensures |curve| >= 2 ==>
      exists i, j :: LargestFall(curve, i, j) && maxDd == Fall(curve, i, j) && maxDdPct == FallPct(curve, i, j)
    ensures maxDd >= 0.0
  {
    if |curve| < 2 {
      return 0.0, 0.0;
    }
    var peak := curve[0];
    maxDd, maxDdPct := 0.0, 0.0;
    ghost var top, i, j := 0, 0, 0;
    for n := 1 to |curve|
      invariant 0 <= top < n && peak == curve[top]
      invariant forall k :: 0 <= k < n ==> curve[k] <= peak
      invariant i <= j < n && maxDd == Fall(curve, i, j) && maxDdPct == FallPct(curve, i, j) && maxDd >= 0.0
      invariant forall k, l :: 0 <= k <= l < n ==> Fall(curve, k, l) <= maxDd
    {
      var equity := curve[n];
      if equity > peak {
        peak, top := equity, n;
      }
      var drawdown := peak - equity;
      var ddPct := if peak > 0.0 then drawdown / peak else 0.0;
      if drawdown > maxDd {
        maxDd, maxDdPct := drawdown, ddPct;
        i, j := top, n;
      }
    }
    assert LargestFall(curve, i, j);
  }

  /** A curve that never falls has no drawdown, and only such a curve. */
  lemma NoDrawdownIff(curve: seq<real>, i: nat, j: nat)
    requires LargestFall(curve, i, j)
    ensures Fall(curve, i, j) == 0.0 <==> forall k, l :: 0 <= k <= l < |curve| ==> curve[k] <= curve[l]
  {
    assert Fall(curve, i, i) <= Fall(curve, i, j);
    if Fall(curve, i, j) == 0.0 {
      forall k, l | 0 <= k <= l < |curve| ensures curve[k] <= curve[l] {
        assert Fall(curve, k, l) <= Fall(curve, i, j);
      }
    }
  }
}
