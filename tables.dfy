/**
  Linear texel tables (one value per channel) and the element-wise
  accumulation the precompute applies to them between scattering orders.
  Values are integers: the floating-point sum of the source is abstracted
  to exact addition.
*/
module Tables {

  type Table = seq<int>

  /** A table of `n` zero values. */
  function Zeros(n: nat): (t: Table)
    ensures |t| == n
    ensures forall k :: 0 <= k < n ==> t[k] == 0
  {
    seq(n, _ => 0)
  }

  /** Texel-by-texel sum of two tables of the same length. */
  function Add(a: Table, b: Table): (r: Table)
    requires |a| == |b|
    ensures |r| == |a|
    ensures forall k :: 0 <= k < |r| ==> r[k] == a[k] + b[k]
  {
    if a == [] then [] else [a[0] + b[0]] + Add(a[1..], b[1..])
  }

  lemma AddAssociative(a: Table, b: Table, c: Table)
    requires |a| == |b| == |c|
    ensures Add(Add(a, b), c) == Add(a, Add(b, c))
  {
  }

  predicate SameLength(ts: seq<Table>)
  {
    forall i :: 0 <= i < |ts| ==> |ts[i]| == |ts[0]|
  }

  /** The mathematical sum of all tables of a non-empty list (right fold). */
  function Total(ts: seq<Table>): (r: Table)
    requires |ts| >= 1 && SameLength(ts)
    ensures |r| == |ts[0]|
  {
    if |ts| == 1 then ts[0] else Add(ts[0], Total(ts[1..]))
  }

  /**
    The running total the accumulators hold: the first table is copied,
    every later one is added onto what is there (left fold).
  */
  function Accumulate(ts: seq<Table>): (r: Table)
    requires |ts| >= 1 && SameLength(ts)
    ensures |r| == |ts[0]|
  {
    if |ts| == 1 then ts[0] else Add(Accumulate(ts[..|ts| - 1]), ts[|ts| - 1])
  }

  /** Adding one more table at the end of the sum. */
  lemma {:induction false} TotalSnoc(ts: seq<Table>, t: Table)
    requires |ts| >= 1 && SameLength(ts) && |t| == |ts[0]|
    ensures SameLength(ts + [t])
    ensures Total(ts + [t]) == Add(Total(ts), t)
  {
    var us := ts + [t];
    assert us[1..] == ts[1..] + [t];
    if |ts| > 1 {
      TotalSnoc(ts[1..], t);
      AddAssociative(ts[0], Total(ts[1..]), t);
    }
  }

  /**
    Copy-then-add accumulation in order equals the sum of the individually
    computed tables: [t1, t2, t3] accumulated is t1 + (t2 + t3).
  */
  lemma {:induction false} AccumulateIsTotal(ts: seq<Table>)
    requires |ts| >= 1 && SameLength(ts)
    ensures Accumulate(ts) == Total(ts)
  {
    if |ts| > 1 {
      var init := ts[..|ts| - 1];
      AccumulateIsTotal(init);
      TotalSnoc(init, ts[|ts| - 1]);
      assert init + [ts[|ts| - 1]] == ts;
    }
  }
}
