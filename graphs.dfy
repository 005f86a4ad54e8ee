/** The headline figures of the sales and login charts (client/src/components/SalesGraph.jsx and
    client/src/components/LoginGraph.jsx): the total of the series, and the growth of its later
    half over its earlier half. Both panels compute them the same way over their own series. */
module Graphs {
  /** `values.reduce((sum, current) => sum + current, 0)`. */
  function Total(values: seq<int>): (r: int)
    ensures values == [] ==> r == 0
    ensures (forall i :: 0 <= i < |values| ==> values[i] >= 0) ==> r >= 0
  {
    if values == [] then 0 else Total(values[..|values| - 1]) + values[|values| - 1]
  }

  /** `Math.floor(values.length / 2)`. */
  function HalfIndex(values: seq<int>): (k: nat)
    ensures k <= |values| && k + k <= |values| <= k + k + 1
  {
    |values| / 2
  }

  function FirstHalf(values: seq<int>): int {
    Total(values[..HalfIndex(values)])
  }

  function SecondHalf(values: seq<int>): int {
    Total(values[HalfIndex(values)..])
  }

  /** The totals of two adjacent slices add up. */
  lemma {:induction false} TotalAppend(a: seq<int>, b: seq<int>)
    ensures Total(a + b) == Total(a) + Total(b)
  {
    if b != [] {
      assert (a + b)[..|a + b| - 1] == a + b[..|b| - 1];
      TotalAppend(a, b[..|b| - 1]);
    } else {
      assert a + b == a;
    }
  }

  /** The halves split the total: together they cover every value once, with the middle value
      of an odd-length series in the second half. */
  lemma HalvesCoverTotal(values: seq<int>)
    ensures FirstHalf(values) + SecondHalf(values) == Total(values)
    ensures |values[HalfIndex(values)..]| == |values[..HalfIndex(values)]| + |values| % 2
  {
    var k := HalfIndex(values);
    assert values == values[..k] + values[k..];
    TotalAppend(values[..k], values[k..]);
  }

  /** `firstHalf > 0 ? ((secondHalf - firstHalf) / firstHalf) * 100 : 0`. */
  function Change(values: seq<int>): (c: real)
    ensures FirstHalf(values) <= 0 ==> c == 0.0
    ensures FirstHalf(values) > 0 ==> (c >= 0.0 <==> SecondHalf(values) >= FirstHalf(values))
    ensures |values| <= 1 ==> c == 0.0
  {
    var first := FirstHalf(values);
    var second := SecondHalf(values);
    if first > 0 then ((second - first) as real / first as real) * 100.0 else 0.0
  }

  /** The panel's figures: `setTotalRevenue` / `setTotalLogins` and `setPercentChange`. */
  class GraphPanel {
    var total: int
    var percentChange: real

    constructor ()
      ensures total == 0 && percentChange == 0.0
    {
      total := 0;
      percentChange := 0.0;
    }

    /** `fetchData` once the series has arrived. */
    method Show(values: seq<int>)
      modifies this
      ensures total == Total(values) && percentChange == Change(values)
      ensures total == FirstHalf(values) + SecondHalf(values)
    {
      HalvesCoverTotal(values);
      total := Total(values);
      percentChange := Change(values);
    }
  }
}
