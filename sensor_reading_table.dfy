/**
 * The two computations of the readings table in the dashboard: the unit label
 * in the value column's header, and the window of readings a page shows.
 * Rendering and the page state around them are not part of the model.
 */
module SensorReadingTable {
  import opened Wrappers
  import opened Models

  const PageSize: nat := 10

  /** The header suffix for a unit; a missing unit (null or undefined) gives "". */
  function UnitLabel(unit: Option<SensorUnit>): (text: string)
    ensures text == "" <==> unit.None?
  {
    match unit
    case Some(Celsius) => "(°C)"
    case Some(Fahrenheit) => "(°F)"
    case None => ""
  }

  /** Distinct units are labelled differently. */
  lemma UnitLabelInjective(a: Option<SensorUnit>, b: Option<SensorUnit>)
    ensures UnitLabel(a) == UnitLabel(b) ==> a == b
  {
    if UnitLabel(a) == UnitLabel(b) && a.Some? && b.Some? {
      assert UnitLabel(a)[2] == UnitLabel(b)[2];
    }
  }

  /**
   * The column label: the label of the first reading's unit, "" for an empty list
   * (where `readings[0]?.unit` is undefined).
   */
  function ColumnLabel(readings: seq<SensorReading>): (text: string)
    ensures text == "" <==> readings == [] || readings[0].unit.None?
  {
    UnitLabel(if readings == [] then None else readings[0].unit)
  }

  /**
   * `Array.prototype.slice(start, end)`: a negative bound counts back from the
   * end, bounds are clamped to the array, and a window with end <= start is empty.
   */
  function Slice<T>(s: seq<T>, start: int, end: int): (r: seq<T>)
    ensures |r| <= |s| && forall x :: x in r ==> x in s
    ensures 0 <= start <= end ==> r == s[Min(start, |s|)..Min(end, |s|)]
    ensures 0 <= end <= start ==> r == []
  {
    var from := if start < 0 then Max(|s| + start, 0) else Min(start, |s|);
    var to := if end < 0 then Max(|s| + end, 0) else Min(end, |s|);
    if from < to then s[from..to] else []
  }

  function Min(a: int, b: int): int { if a <= b then a else b }

  function Max(a: int, b: int): int { if a >= b then a else b }

  /** The readings page `page` shows: `readings.slice((page - 1) * 10, (page - 1) * 10 + 10)`. */
  function PageWindow<T>(readings: seq<T>, page: int): (w: seq<T>)
    ensures |w| <= PageSize && forall x :: x in w ==> x in readings
  {
    var start := (page - 1) * PageSize;
    Slice(readings, start, start + PageSize)
  }

  /**
   * For a page number from 1 up, the window is the contiguous stretch from index
   * (page - 1) * 10 to page * 10, cut at the end of the list: at most 10 readings.
   */
  lemma PageWindowIsContiguous<T>(readings: seq<T>, page: int)
    requires page >= 1
    ensures var n := |readings|;
      PageWindow(readings, page) == readings[Min((page - 1) * PageSize, n)..Min(page * PageSize, n)]
  {
  }

  /**
   * When every reading has the same unit, the header's label is the label of every
   * row shown, on any page.
   */
  lemma PageRowsMatchColumnLabel(readings: seq<SensorReading>, page: int, u: Option<SensorUnit>)
    requires forall x :: x in readings ==> x.unit == u
    ensures forall x :: x in PageWindow(readings, page) ==> UnitLabel(x.unit) == ColumnLabel(readings)
  {
    if readings != [] {
      assert readings[0] in readings;
    }
  }

  /** Pages 1 to `count`, one after another. */
  function FirstPages<T>(readings: seq<T>, count: nat): seq<T>
  {
    if count == 0 then [] else FirstPages(readings, count - 1) + PageWindow(readings, count)
  }

  /**
   * Page 1 starts at index 0 and every page starts where the previous one ended:
   * the first `count` pages together are the first `count * 10` readings.
   */
  lemma {:induction false} FirstPagesArePrefix<T>(readings: seq<T>, count: nat)
    ensures FirstPages(readings, count) == readings[..Min(count * PageSize, |readings|)]
  {
    if count > 0 {
      FirstPagesArePrefix(readings, count - 1);
      PageWindowIsContiguous(readings, count);
      var n := |readings|;
      var a, b := Min((count - 1) * PageSize, n), Min(count * PageSize, n);
      assert readings[..a] + readings[a..b] == readings[..b];
    }
  }

  /** Reading `i` is shown on page `i / 10 + 1`, in row `i % 10`. */
  lemma PageOfIndex<T>(readings: seq<T>, i: nat)
    requires i < |readings|
    ensures i % PageSize < |PageWindow(readings, i / PageSize + 1)|
    ensures PageWindow(readings, i / PageSize + 1)[i % PageSize] == readings[i]
  {
    var page := i / PageSize + 1;
    PageWindowIsContiguous(readings, page);
    assert (page - 1) * PageSize + i % PageSize == i;
  }
}
