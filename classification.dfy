/**
 * The threshold classifier of js/main.js: `getColor(d, breaks)` scans the
 * upper bounds of the five ckmeans classes in ascending order and returns the
 * colour of the first class whose upper bound is at least `d`; the legend
 * colours each class's swatch with `getColor(breaks[i][0], breaks)`.
 */
module Classification {
  import opened Wrappers

  /** One class break `[low, high]`: the lowest and highest value of a cluster. */
  datatype Break = Break(low: real, high: real)

  /** Reading `breaks[k][1]` when there is no k-th break throws a TypeError. */
  datatype Fault = MissingBreak(index: nat)

  /** The number of classes `getColor` distinguishes. */
  const Classes: nat := 5

  /** The sequential blue ramp, lightest first: the colour of class i is Palette[i]. */
  const Palette: seq<string> := ["#f1eef6", "#bdc9e1", "#74a9cf", "#2b8cbe", "#045a8d"]

  /** `d` lies above the upper bounds of the first `n` breaks. */
  ghost predicate AboveAll(d: real, breaks: seq<Break>, n: nat)
    requires n <= |breaks|
  {
    forall j :: 0 <= j < n ==> d > breaks[j].high
  }

  /** Class `i` is the first class, in ascending order, whose upper bound is at least `d`. */
  ghost predicate FirstMatch(d: real, breaks: seq<Break>, i: nat)
  {
    && i < Classes
    && i < |breaks|
    && d <= breaks[i].high
    && AboveAll(d, breaks, i)
  }

  /** Every class's range is non-empty: `low <= high`. */
  ghost predicate WellFormed(breaks: seq<Break>)
  {
    forall i :: 0 <= i < |breaks| ==> breaks[i].low <= breaks[i].high
  }

  /** Each class starts at or above the previous class's upper bound; ties are allowed. */
  ghost predicate Ascending(breaks: seq<Break>)
  {
    forall i :: 0 < i < |breaks| ==> breaks[i - 1].high <= breaks[i].low
  }

  /** Well-formed, and each class starts strictly above the previous class's upper bound. */
  ghost predicate Separated(breaks: seq<Break>)
  {
    && WellFormed(breaks)
    && forall i :: 0 < i < |breaks| ==> breaks[i - 1].high < breaks[i].low
  }

  /**
   * The `else if` chain from class k on: the first of classes k..Classes-1
   * whose upper bound is at least `d`, no class when `d` exceeds them all,
   * and a fault when the chain reads past the last break.
   */
  function Scan(d: real, breaks: seq<Break>, k: nat): (r: Result<Option<nat>, Fault>)
    requires k <= Classes && k <= |breaks|
    decreases Classes - k
    ensures r.Ok? && r.value.Some? ==>
      && k <= r.value.value < Classes
      && r.value.value < |breaks|
      && d <= breaks[r.value.value].high
      && forall j :: k <= j < r.value.value ==> d > breaks[j].high
    ensures r.Ok? && r.value.None? ==>
      Classes <= |breaks| && forall j :: k <= j < Classes ==> d > breaks[j].high
    ensures r.Err? ==>
      && |breaks| < Classes
      && r.error == MissingBreak(|breaks|)
      && forall j :: k <= j < |breaks| ==> d > breaks[j].high
  {
    if k == Classes then Ok(None)
    else if k >= |breaks| then Err(MissingBreak(k))
    else if d <= breaks[k].high then Ok(Some(k))
    else Scan(d, breaks, k + 1)
  }

  /**
   * The class `getColor` picks for `d`: class i exactly when i is the first
   * match; no class exactly when `d` exceeds all five upper bounds; a fault
   * exactly when there are fewer than five breaks and `d` exceeds them all.
   */
  function ClassOf(d: real, breaks: seq<Break>): (r: Result<Option<nat>, Fault>)
    ensures forall i: nat :: r == Ok(Some(i)) <==> FirstMatch(d, breaks, i)
    ensures r == Ok(None) <==> Classes <= |breaks| && AboveAll(d, breaks, Classes)
    ensures r == Err(MissingBreak(|breaks|)) <==> |breaks| < Classes && AboveAll(d, breaks, |breaks|)
    ensures r.Err? ==> r.error == MissingBreak(|breaks|)
  {
    Scan(d, breaks, 0)
  }

  /**
   * `getColor(d, breaks)`: the palette colour of the first matching class,
   * `undefined` (None) above the fifth upper bound, or the TypeError.
   */
  function GetColor(d: real, breaks: seq<Break>): (r: Result<Option<string>, Fault>)
    ensures forall i :: 0 <= i < Classes ==> (r == Ok(Some(Palette[i])) <==> FirstMatch(d, breaks, i))
    ensures r == Ok(None) <==> Classes <= |breaks| && AboveAll(d, breaks, Classes)
    ensures r.Err? <==> |breaks| < Classes && AboveAll(d, breaks, |breaks|)
  {
    match ClassOf(d, breaks)
    case Ok(Some(i)) => Ok(Some(Palette[i]))
    case Ok(None) => Ok(None)
    case Err(e) => Err(e)
  }

  /** Only the upper bounds decide the class: changing the lower bounds changes nothing. */
  lemma {:induction false} ScanIgnoresLowerBounds(d: real, b1: seq<Break>, b2: seq<Break>, k: nat)
    requires k <= Classes && k <= |b1|
    requires |b1| == |b2|
    requires forall i :: 0 <= i < |b1| ==> b1[i].high == b2[i].high
    ensures Scan(d, b1, k) == Scan(d, b2, k)
    decreases Classes - k
  {
    if k < Classes && k < |b1| && d > b1[k].high {
      ScanIgnoresLowerBounds(d, b1, b2, k + 1);
    }
  }

  /** `getColor` reads only `breaks[i][1]`, never `breaks[i][0]`. */
  lemma ColorIgnoresLowerBounds(d: real, b1: seq<Break>, b2: seq<Break>)
    requires |b1| == |b2|
    requires forall i :: 0 <= i < |b1| ==> b1[i].high == b2[i].high
    ensures ClassOf(d, b1) == ClassOf(d, b2)
    ensures GetColor(d, b1) == GetColor(d, b2)
  {
    ScanIgnoresLowerBounds(d, b1, b2, 0);
  }

  /**
   * The classifier is monotone: a smaller value never gets a higher class,
   * and never faults or falls off the end where a larger value did not.
   */
  lemma ClassOfMonotone(d1: real, d2: real, breaks: seq<Break>)
    requires d1 <= d2
    requires ClassOf(d2, breaks).Ok?
    ensures ClassOf(d1, breaks).Ok?
    ensures ClassOf(d2, breaks).value.Some? ==>
      ClassOf(d1, breaks).value.Some? && ClassOf(d1, breaks).value.value <= ClassOf(d2, breaks).value.value
  {
  }

  /**
   * With at least five breaks `getColor` never throws. `ss.ckmeans(values, 5)`
   * returns five breaks unless all rates are equal; for any number of clusters,
   * TractColourMatchesLegendRange rules out a fault for every tract's rate.
   */
  lemma FiveBreaksNeverFault(d: real, breaks: seq<Break>)
    requires Classes <= |breaks|
    ensures ClassOf(d, breaks).Ok?
    ensures GetColor(d, breaks).Ok?
  {
  }

  /** A value inside some class's range is never above all upper bounds: it gets a class. */
  lemma ValueInRangeGetsClass(d: real, breaks: seq<Break>, i: nat)
    requires i < |breaks| && i < Classes
    requires d <= breaks[i].high
    ensures ClassOf(d, breaks).Ok? && ClassOf(d, breaks).value.Some?
    ensures ClassOf(d, breaks).value.value <= i
  {
  }

  /** In separated breaks every upper bound lies below every later class's lower bound. */
  lemma {:induction false} SeparatedHighBelowLaterLow(breaks: seq<Break>, j: nat, i: nat)
    requires Separated(breaks)
    requires j < i < |breaks|
    ensures breaks[j].high < breaks[i].low
    decreases i - j
  {
    if j + 1 < i {
      SeparatedHighBelowLaterLow(breaks, j + 1, i);
      assert breaks[j + 1].low <= breaks[j + 1].high;
    }
  }

  /**
   * The legend's swatch for class i, `getColor(breaks[i][0], breaks)`, is the
   * i-th colour when the classes are separated; a sixth class or beyond would
   * get no colour.
   */
  lemma SwatchOfSeparated(breaks: seq<Break>, i: nat)
    requires Separated(breaks)
    requires i < |breaks|
    ensures GetColor(breaks[i].low, breaks) == Ok(if i < Classes then Some(Palette[i]) else None)
  {
    forall j | 0 <= j < i
      ensures breaks[i].low > breaks[j].high
    {
      SeparatedHighBelowLaterLow(breaks, j, i);
    }
    if i < Classes {
      assert FirstMatch(breaks[i].low, breaks, i);
    } else {
      assert AboveAll(breaks[i].low, breaks, Classes);
    }
  }

  /** The swatch of a class whose range is non-empty never faults. */
  lemma SwatchOfWellFormed(breaks: seq<Break>, i: nat)
    requires WellFormed(breaks)
    requires i < |breaks|
    ensures GetColor(breaks[i].low, breaks).Ok?
  {
    assert !AboveAll(breaks[i].low, breaks, |breaks|) by {
      assert breaks[i].low <= breaks[i].high;
    }
  }

  /** In well-formed ascending breaks the upper bounds never decrease. */
  lemma {:induction false} AscendingHighs(breaks: seq<Break>, j: nat, i: nat)
    requires WellFormed(breaks) && Ascending(breaks)
    requires j <= i < |breaks|
    ensures breaks[j].high <= breaks[i].high
    decreases i - j
  {
    if j < i {
      AscendingHighs(breaks, j + 1, i);
      assert breaks[j].high <= breaks[j + 1].low <= breaks[j + 1].high;
    }
  }

  /**
   * For well-formed ascending breaks, as ckmeans supplies them, the legend's
   * swatch for class i (0 < i < 5) is the i-th colour exactly when the class
   * starts strictly above the previous class's upper bound; when the two
   * touch, the swatch takes an earlier class's colour.
   */
  lemma SwatchOfAscending(breaks: seq<Break>, i: nat)
    requires WellFormed(breaks) && Ascending(breaks)
    requires 0 < i < |breaks| && i < Classes
    ensures GetColor(breaks[i].low, breaks) == Ok(Some(Palette[i])) <==> breaks[i - 1].high < breaks[i].low
    ensures breaks[i - 1].high == breaks[i].low ==>
      exists j :: 0 <= j < i && GetColor(breaks[i].low, breaks) == Ok(Some(Palette[j]))
  {
    if breaks[i - 1].high < breaks[i].low {
      forall j | 0 <= j < i
        ensures breaks[i].low > breaks[j].high
      {
        AscendingHighs(breaks, j, i - 1);
      }
      assert FirstMatch(breaks[i].low, breaks, i);
    } else {
      assert !FirstMatch(breaks[i].low, breaks, i);
      ValueInRangeGetsClass(breaks[i].low, breaks, i - 1);
    }
  }

  /** The colour the legend gives the swatch of class i: `getColor(breaks[i][0], breaks)`. */
  function Swatch(breaks: seq<Break>, i: nat): Result<Option<string>, Fault>
    requires i < |breaks|
  {
    GetColor(breaks[i].low, breaks)
  }

  /**
   * The legend loop: one swatch colour per break, each `getColor` of the
   * break's lower bound; a TypeError from any call aborts the whole legend.
   */
  method LegendSwatches(breaks: seq<Break>) returns (r: Result<seq<Option<string>>, Fault>)
    ensures r.Err? <==> exists i :: 0 <= i < |breaks| && Swatch(breaks, i).Err?
    ensures r.Ok? ==>
      && |r.value| == |breaks|
      && forall i :: 0 <= i < |breaks| ==> Swatch(breaks, i) == Ok(r.value[i])
    ensures WellFormed(breaks) ==> r.Ok?
    ensures Separated(breaks) ==>
      r.Ok? && forall i :: 0 <= i < |breaks| ==> r.value[i] == if i < Classes then Some(Palette[i]) else None
  {
    var swatches: seq<Option<string>> := [];
    for i := 0 to |breaks|
      invariant |swatches| == i
      invariant forall k :: 0 <= k < i ==> Swatch(breaks, k) == Ok(swatches[k])
    {
      var color := GetColor(breaks[i].low, breaks);
      assert color == Swatch(breaks, i);
      if color.Err? {
        if WellFormed(breaks) {
          SwatchOfWellFormed(breaks, i);
        }
        return Err(color.error);
      }
      swatches := swatches + [color.value];
    }
    r := Ok(swatches);
    if WellFormed(breaks) {
      forall i | 0 <= i < |breaks|
        ensures Swatch(breaks, i).Ok?
      {
        SwatchOfWellFormed(breaks, i);
      }
    }
    if Separated(breaks) {
      forall i | 0 <= i < |breaks|
        ensures swatches[i] == if i < Classes then Some(Palette[i]) else None
      {
        SwatchOfSeparated(breaks, i);
      }
    }
  }
}
