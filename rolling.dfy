/** pandas' `Series.rolling(window=w)` followed by `.min()`, `.max()` or `.mean()`, on a
    column of optional reals. With the default `min_periods` (equal to the window), a
    position has a value only when the whole window of `w` positions ending there
    exists and holds no NaN. */
module Rolling {
  import opened Optional

  /** A numeric column, index-aligned to the rows of a frame; `None` stands for NaN. */
  type Column = seq<Option<real>>

  /** The window of `w` positions ending at `i` exists and holds no NaN. */
  predicate Complete(s: Column, w: nat, i: nat)
    requires i < |s|
  {
    w <= i + 1 && forall k :: i + 1 - w <= k <= i ==> s[k].Some?
  }

  /** The values of a complete window, oldest first. */
  function WindowValues(s: Column, w: nat, i: nat): (vs: seq<real>)
    requires i < |s| && Complete(s, w, i)
    ensures |vs| == w
    ensures forall j :: 0 <= j < w ==> s[i + 1 - w + j] == Some(vs[j])
  {
    seq(w, j requires 0 <= j < w => s[i + 1 - w + j].value)
  }

  function Min(vs: seq<real>): (m: real)
    requires |vs| > 0
    ensures exists k :: 0 <= k < |vs| && vs[k] == m
    ensures forall k :: 0 <= k < |vs| ==> m <= vs[k]
  {
    if |vs| == 1 then vs[0]
    else
      var rest := Min(vs[..|vs| - 1]);
      if vs[|vs| - 1] < rest then vs[|vs| - 1] else rest
  }

  function Max(vs: seq<real>): (m: real)
    requires |vs| > 0
    ensures exists k :: 0 <= k < |vs| && vs[k] == m
    ensures forall k :: 0 <= k < |vs| ==> vs[k] <= m
  {
    if |vs| == 1 then vs[0]
    else
      var rest := Max(vs[..|vs| - 1]);
      if rest < vs[|vs| - 1] then vs[|vs| - 1] else rest
  }

  /** Left-to-right sum of a window. */
  function Sum(vs: seq<real>): real
  {
    if |vs| == 0 then 0.0 else Sum(vs[..|vs| - 1]) + vs[|vs| - 1]
  }

  /** A sum of `n` values that all lie in `[lo, hi]` lies in `[n * lo, n * hi]`. */
  lemma {:induction false} SumBounds(vs: seq<real>, lo: real, hi: real)
    requires forall k :: 0 <= k < |vs| ==> lo <= vs[k] <= hi
    ensures (|vs| as real) * lo <= Sum(vs) <= (|vs| as real) * hi
  {
    if |vs| > 0 {
      var init := vs[..|vs| - 1];
      SumBounds(init, lo, hi);
      var n := |init| as real;
      assert (n + 1.0) * lo == n * lo + lo;
      assert (n + 1.0) * hi == n * hi + hi;
    }
  }

  /** The arithmetic mean lies between the smallest and the largest value. */
  function Mean(vs: seq<real>): (m: real)
    requires |vs| > 0
    ensures Min(vs) <= m <= Max(vs)
  {
    var n := |vs| as real;
    SumBounds(vs, Min(vs), Max(vs));
    DivideBounds(Sum(vs), n, Min(vs), Max(vs));
    Sum(vs) / n
  }

  lemma DivideBounds(x: real, n: real, lo: real, hi: real)
    requires n > 0.0 && n * lo <= x <= n * hi
    ensures lo <= x / n <= hi
  {
    assert x / n * n == x;
  }

  /** `s.rolling(window=w).min()` */
  function RollingMin(s: Column, w: nat): (r: Column)
    requires w > 0
    ensures |r| == |s|
  {
    seq(|s|, i requires 0 <= i < |s| =>
      if Complete(s, w, i) then Some(Min(WindowValues(s, w, i))) else None)
  }

  /** `s.rolling(window=w).max()` */
  function RollingMax(s: Column, w: nat): (r: Column)
    requires w > 0
    ensures |r| == |s|
  {
    seq(|s|, i requires 0 <= i < |s| =>
      if Complete(s, w, i) then Some(Max(WindowValues(s, w, i))) else None)
  }

  /** `s.rolling(window=w).mean()` */
  function RollingMean(s: Column, w: nat): (r: Column)
    requires w > 0
    ensures |r| == |s|
  {
    seq(|s|, i requires 0 <= i < |s| =>
      if Complete(s, w, i) then Some(Mean(WindowValues(s, w, i))) else None)
  }

  /** The rolling minimum at `i` is defined exactly when the window is complete; it is
      then one of the window's values and no larger than any of them. */
  lemma RollingMinAt(s: Column, w: nat, i: nat)
    requires w > 0 && i < |s|
    ensures RollingMin(s, w)[i].Some? <==> Complete(s, w, i)
    ensures RollingMin(s, w)[i].Some? ==>
      (exists k :: i + 1 - w <= k <= i && s[k] == RollingMin(s, w)[i]) &&
      forall k :: i + 1 - w <= k <= i ==> RollingMin(s, w)[i].value <= s[k].value
  {
    if Complete(s, w, i) {
      var vs := WindowValues(s, w, i);
      var m := Min(vs);
      var j :| 0 <= j < w && vs[j] == m;
      assert s[i + 1 - w + j] == Some(m);
      forall k | i + 1 - w <= k <= i ensures m <= s[k].value {
        assert s[k] == Some(vs[k - (i + 1 - w)]);
      }
    }
  }

  /** The dual of RollingMinAt for the rolling maximum. */
  lemma RollingMaxAt(s: Column, w: nat, i: nat)
    requires w > 0 && i < |s|
    ensures RollingMax(s, w)[i].Some? <==> Complete(s, w, i)
    ensures RollingMax(s, w)[i].Some? ==>
      (exists k :: i + 1 - w <= k <= i && s[k] == RollingMax(s, w)[i]) &&
      forall k :: i + 1 - w <= k <= i ==> s[k].value <= RollingMax(s, w)[i].value
  {
    if Complete(s, w, i) {
      var vs := WindowValues(s, w, i);
      var m := Max(vs);
      var j :| 0 <= j < w && vs[j] == m;
      assert s[i + 1 - w + j] == Some(m);
      forall k | i + 1 - w <= k <= i ensures s[k].value <= m {
        assert s[k] == Some(vs[k - (i + 1 - w)]);
      }
    }
  }

  /** The rolling mean at `i` is defined exactly when the window is complete; it is then
      the window's sum divided by `w`, lies between the rolling minimum and maximum, and
      so is bounded below and above by values of the window itself. */
  lemma RollingMeanAt(s: Column, w: nat, i: nat)
    requires w > 0 && i < |s|
    ensures RollingMean(s, w)[i].Some? <==> Complete(s, w, i)
    ensures RollingMean(s, w)[i].Some? ==>
      RollingMean(s, w)[i].value == Sum(WindowValues(s, w, i)) / (w as real) &&
      RollingMin(s, w)[i].value <= RollingMean(s, w)[i].value <= RollingMax(s, w)[i].value
    ensures RollingMean(s, w)[i].Some? ==>
      (exists k :: i + 1 - w <= k <= i && s[k].value <= RollingMean(s, w)[i].value) &&
      (exists k :: i + 1 - w <= k <= i && RollingMean(s, w)[i].value <= s[k].value)
  {
    if Complete(s, w, i) {
      RollingMinAt(s, w, i);
      RollingMaxAt(s, w, i);
    }
  }

  /** A series shorter than the window has no defined position at all. */
  lemma ShortSeriesUndefined(s: Column, w: nat)
    requires 0 < w && |s| < w
    ensures forall i :: 0 <= i < |s| ==>
      RollingMin(s, w)[i] == None && RollingMax(s, w)[i] == None && RollingMean(s, w)[i] == None
  {
  }
}
