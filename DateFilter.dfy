/** Date filters of the grid: whether a date cell's timestamp passes a
    filter, and the type check that lets every non-date cell through. */
module DateFilter {

  import opened Wrappers
  import opened Ints

  datatype DateFilterCondition =
    DateIs | DateBefore | DateAfter | DateOnOrBefore | DateOnOrAfter | DateWithIn | DateIsEmpty

  /** A condition with its optional operands, timestamps of whole days. */
  datatype GridDateFilter = GridDateFilter(condition: DateFilterCondition, start: Option<i64>, end: Option<i64>)

  /** A cell handed to the filter: a date cell with its decoded timestamp, or
      a cell of any other type with its raw data. */
  datatype AnyCellData = DateCell(timestamp: i64) | OtherCell(data: string)

  /** The error type of filter operations; no date filter produces one. */
  datatype FlowyError = FlowyError(msg: string)

  /** Whether a cell with timestamp `cell` is shown under filter `f`. Without a
      start operand nothing is shown, whatever the condition. */
  function IsVisible(f: GridDateFilter, cell: i64): (visible: bool)
    ensures f.start.None? ==> !visible
    ensures visible && f.condition == DateIsEmpty ==> cell == 0
    ensures visible && f.condition == DateWithIn ==> f.end.Some? && f.start.value <= cell <= f.end.value
  {
    if f.start.None? then
      false
    else
      var start := f.start.value;
      match f.condition
      case DateIs => cell == start
      case DateBefore => cell < start
      case DateAfter => cell > start
      case DateOnOrBefore => cell <= start
      case DateOnOrAfter => cell >= start
      case DateWithIn =>
        (match f.end
         case Some(end) => cell >= start && cell <= end
         case None => false)
      case DateIsEmpty => cell == 0
  }

  /** `apply_filter` for date fields: never an error; a cell that is not a
      date passes, a date cell passes when its timestamp is visible. */
  function ApplyFilter(cell: AnyCellData, f: GridDateFilter): (r: Result<bool, FlowyError>)
    ensures r.Success?
    ensures !cell.DateCell? ==> r.value
    ensures cell.DateCell? ==> (r.value <==> IsVisible(f, cell.timestamp))
  {
    if !cell.DateCell? then
      Success(true)
    else
      Success(IsVisible(f, cell.timestamp))
  }

  // ---------------------------------------------------------------------------
  // Properties
  // ---------------------------------------------------------------------------

  /** A filter without a start hides every date cell, even under
      `DateIsEmpty` and even for the empty timestamp 0. */
  lemma MissingStartHidesAll(c: DateFilterCondition, end: Option<i64>, cell: i64)
    ensures !IsVisible(GridDateFilter(c, None, end), cell)
    ensures !IsVisible(GridDateFilter(DateIsEmpty, None, end), 0)
  {
  }

  /** With a start present, each single-operand condition is the named
      comparison of the cell against the start, whatever the end is. */
  lemma ComparisonConditions(s: i64, end: Option<i64>, cell: i64)
    ensures IsVisible(GridDateFilter(DateIs, Some(s), end), cell) <==> cell == s
    ensures IsVisible(GridDateFilter(DateBefore, Some(s), end), cell) <==> cell < s
    ensures IsVisible(GridDateFilter(DateAfter, Some(s), end), cell) <==> cell > s
    ensures IsVisible(GridDateFilter(DateOnOrBefore, Some(s), end), cell) <==> cell <= s
    ensures IsVisible(GridDateFilter(DateOnOrAfter, Some(s), end), cell) <==> cell >= s
  {
  }

  /** `DateBefore` is the negation of `DateOnOrAfter`, and `DateAfter` of
      `DateOnOrBefore`, at the same start. */
  lemma StrictIsComplementOfNonStrict(s: i64, end: Option<i64>, cell: i64)
    ensures IsVisible(GridDateFilter(DateBefore, Some(s), end), cell)
        <==> !IsVisible(GridDateFilter(DateOnOrAfter, Some(s), end), cell)
    ensures IsVisible(GridDateFilter(DateAfter, Some(s), end), cell)
        <==> !IsVisible(GridDateFilter(DateOnOrBefore, Some(s), end), cell)
  {
  }

  /** `DateOnOrBefore` is `DateBefore` or `DateIs`, `DateOnOrAfter` is `DateAfter`
      or `DateIs`, and `DateIs` is both non-strict comparisons at once. */
  lemma NonStrictSplits(s: i64, end: Option<i64>, cell: i64)
    ensures IsVisible(GridDateFilter(DateOnOrBefore, Some(s), end), cell)
        <==> IsVisible(GridDateFilter(DateBefore, Some(s), end), cell) || IsVisible(GridDateFilter(DateIs, Some(s), end), cell)
    ensures IsVisible(GridDateFilter(DateOnOrAfter, Some(s), end), cell)
        <==> IsVisible(GridDateFilter(DateAfter, Some(s), end), cell) || IsVisible(GridDateFilter(DateIs, Some(s), end), cell)
    ensures IsVisible(GridDateFilter(DateIs, Some(s), end), cell)
        <==> IsVisible(GridDateFilter(DateOnOrBefore, Some(s), end), cell) && IsVisible(GridDateFilter(DateOnOrAfter, Some(s), end), cell)
  {
  }

  /** `DateAfter` never shows the empty timestamp 0 when the start is positive. */
  lemma AfterRejectsZero(s: i64, end: Option<i64>)
    requires s > 0
    ensures !IsVisible(GridDateFilter(DateAfter, Some(s), end), 0)
  {
  }

  /** `DateWithIn` is the closed range from start to end: on-or-after the start
      and on-or-before the end; without an end it shows nothing, and a range
      of one day is `DateIs`. */
  lemma WithInIsClosedRange(s: i64, e: i64, cell: i64)
    ensures IsVisible(GridDateFilter(DateWithIn, Some(s), Some(e)), cell) <==> s <= cell <= e
    ensures IsVisible(GridDateFilter(DateWithIn, Some(s), Some(e)), cell)
        <==> IsVisible(GridDateFilter(DateOnOrAfter, Some(s), None), cell) && IsVisible(GridDateFilter(DateOnOrBefore, Some(e), None), cell)
    ensures !IsVisible(GridDateFilter(DateWithIn, Some(s), None), cell)
    ensures IsVisible(GridDateFilter(DateWithIn, Some(s), Some(s)), cell) <==> IsVisible(GridDateFilter(DateIs, Some(s), None), cell)
  {
  }

  /** With a start present, `DateIsEmpty` shows exactly the timestamp 0,
      independent of the operand values. */
  lemma IsEmptyIgnoresOperands(s: i64, end: Option<i64>, cell: i64)
    ensures IsVisible(GridDateFilter(DateIsEmpty, Some(s), end), cell) <==> cell == 0
  {
  }

  /** Only `DateWithIn` reads the end operand. */
  lemma EndOnlyMattersForWithIn(f: GridDateFilter, end: Option<i64>, cell: i64)
    requires f.condition != DateWithIn
    ensures IsVisible(f, cell) == IsVisible(f.(end := end), cell)
  {
  }

  /** Every filter shows a range of days without gaps: a timestamp between two
      visible timestamps is visible too. */
  lemma VisibleSetIsConvex(f: GridDateFilter, lo: i64, mid: i64, hi: i64)
    requires lo <= mid <= hi
    requires IsVisible(f, lo) && IsVisible(f, hi)
    ensures IsVisible(f, mid)
  {
  }

  /** The two fallback policies differ on purpose: a filter with no start hides
      every date cell but shows every cell that is not a date. */
  lemma FailClosedAndFailOpen(c: DateFilterCondition, end: Option<i64>, cell: AnyCellData)
    ensures ApplyFilter(cell, GridDateFilter(c, None, end)) == Success(!cell.DateCell?)
  {
  }

  /** The outcomes the source's unit tests expect. */
  lemma UnitTestTable()
    ensures IsVisible(GridDateFilter(DateIs, Some(123), None), 123)
    ensures !IsVisible(GridDateFilter(DateIs, Some(123), None), 12)
    ensures !IsVisible(GridDateFilter(DateBefore, Some(123), None), 123)
    ensures IsVisible(GridDateFilter(DateBefore, Some(123), None), 122)
    ensures IsVisible(GridDateFilter(DateOnOrBefore, Some(123), None), 123)
    ensures IsVisible(GridDateFilter(DateOnOrBefore, Some(123), None), 122)
    ensures IsVisible(GridDateFilter(DateAfter, Some(123), None), 1234)
    ensures !IsVisible(GridDateFilter(DateAfter, Some(123), None), 122)
    ensures !IsVisible(GridDateFilter(DateAfter, Some(123), None), 0)
    ensures IsVisible(GridDateFilter(DateWithIn, Some(123), Some(130)), 123)
    ensures IsVisible(GridDateFilter(DateWithIn, Some(123), Some(130)), 130)
    ensures !IsVisible(GridDateFilter(DateWithIn, Some(123), Some(130)), 132)
  {
  }
}
