/**
 * The year-range controller shared by both tabs: a start select and an end select
 * holding the same closed list of years, where the end select disables every year
 * below the chosen start and the end is pushed up to the start when it falls below it.
 */
module YearRange {

  /** The consecutive years lo..hi in ascending order; empty when hi < lo. */
  function Years(lo: int, hi: int): (ys: seq<int>)
    ensures |ys| == if lo <= hi then hi - lo + 1 else 0
    ensures forall i :: 0 <= i < |ys| ==> ys[i] == lo + i
    decreases hi - lo
  {
    if hi < lo then [] else Years(lo, hi - 1) + [hi]
  }

  /** A year is listed exactly when it lies in the closed range. */
  lemma YearsMembership(lo: int, hi: int, y: int)
    ensures y in Years(lo, hi) <==> lo <= y <= hi
  {
    if lo <= y <= hi {
      assert Years(lo, hi)[y - lo] == y;
    }
  }

  /**
   * The `for (let y = startYear; y <= endYear; y++) years.push(y)` loop of both chart
   * updates.
   */
  method YearsBetween(startYear: int, endYear: int) returns (years: seq<int>)
    ensures years == Years(startYear, endYear)
  {
    years := [];
    var y := startYear;
    while y <= endYear
      invariant startYear <= y <= if startYear <= endYear then endYear + 1 else startYear
      invariant years == Years(startYear, y - 1)
      decreases endYear - y
    {
      years := years + [y];
      y := y + 1;
    }
  }

  /** One `<option>` of a year select. Its text is always its value, so only the value is kept. */
  datatype YearOption = YearOption(value: int, disabled: bool)

  function Values(opts: seq<YearOption>): seq<int> {
    seq(|opts|, i requires 0 <= i < |opts| => opts[i].value)
  }

  /** Freshly created, enabled options for the given years. */
  function FreshOptions(ys: seq<int>): seq<YearOption> {
    seq(|ys|, i requires 0 <= i < |ys| => YearOption(ys[i], false))
  }

  /** The values a user can still pick, in option order. */
  function EnabledValues(opts: seq<YearOption>): seq<int> {
    if |opts| == 0 then []
    else
      var last := opts[|opts| - 1];
      EnabledValues(opts[..|opts| - 1]) + (if last.disabled then [] else [last.value])
  }

  /** Every option is disabled exactly when its year lies below `start`. */
  predicate DisabledBelow(opts: seq<YearOption>, start: int) {
    forall i :: 0 <= i < |opts| ==> (opts[i].disabled <==> opts[i].value < start)
  }

  lemma ValuesOfFresh(ys: seq<int>)
    ensures Values(FreshOptions(ys)) == ys
  {
  }

  lemma FreshOptionsAppend(ys: seq<int>, y: int)
    ensures FreshOptions(ys + [y]) == FreshOptions(ys) + [YearOption(y, false)]
  {
  }

  /**
   * When the options hold lo..hi and exactly the years below `start` are disabled,
   * the years left to pick are max(lo, start)..hi.
   */
  lemma {:induction false} EnabledAfterDisable(opts: seq<YearOption>, lo: int, hi: int, start: int)
    requires Values(opts) == Years(lo, hi)
    requires DisabledBelow(opts, start)
    ensures EnabledValues(opts) == Years(if start < lo then lo else start, hi)
    decreases hi - lo
  {
    var from := if start < lo then lo else start;
    if hi < lo {
      assert |opts| == 0;
    } else {
      var front := opts[..|opts| - 1];
      assert Values(front) == Values(opts)[..|opts| - 1];
      assert Years(lo, hi - 1) == Years(lo, hi)[..|opts| - 1];
      EnabledAfterDisable(front, lo, hi - 1, start);
      assert opts[|opts| - 1].value == Values(opts)[|opts| - 1] == hi;
    }
  }

  /** The start select and end select of one tab. */
  class YearRangeControl {
    var minYear: int
    var maxYear: int
    var startOptions: seq<YearOption>
    var endOptions: seq<YearOption>
    var start: int
    var end: int

    /** Both selects list exactly minYear..maxYear and minYear <= start <= end <= maxYear. */
    predicate Valid()
      reads this
    {
      && Values(startOptions) == Years(minYear, maxYear)
      && Values(endOptions) == Years(minYear, maxYear)
      && minYear <= start <= end <= maxYear
    }

    /** Valid, and the end select disables exactly the years below the start. */
    predicate Settled()
      reads this
    {
      Valid() && DisabledBelow(endOptions, start)
    }

    /** Two empty selects, as on the page before they are populated. */
    constructor ()
      ensures startOptions == [] && endOptions == []
    {
      minYear, maxYear := 0, 0;
      startOptions, endOptions := [], [];
      start, end := 0, 0;
    }

    /** Empties both selects, appends one enabled option per year lo..hi to each, then selects the defaults. */
    method Populate(lo: int, hi: int, defaultStart: int, defaultEnd: int)
      requires lo <= defaultStart <= defaultEnd <= hi
      modifies this
      ensures startOptions == FreshOptions(Years(lo, hi))
      ensures endOptions == FreshOptions(Years(lo, hi))
      ensures minYear == lo && maxYear == hi
      ensures start == defaultStart && end == defaultEnd
      ensures Valid()
    {
      minYear, maxYear := lo, hi;
      startOptions, endOptions := [], [];
      var y := lo;
      while y <= hi
        invariant lo <= y <= hi + 1
        invariant minYear == lo && maxYear == hi
        invariant startOptions == FreshOptions(Years(lo, y - 1))
        invariant endOptions == FreshOptions(Years(lo, y - 1))
      {
        FreshOptionsAppend(Years(lo, y - 1), y);
        startOptions := startOptions + [YearOption(y, false)];
        endOptions := endOptions + [YearOption(y, false)];
        y := y + 1;
      }
      start, end := defaultStart, defaultEnd;
      ValuesOfFresh(Years(lo, hi));
    }

    /**
     * Disables every end option whose year is below the start and, when the end lies
     * below the start, moves it up to the start.
     */
    method UpdateEndYearOptions()
      modifies this
      ensures |endOptions| == |old(endOptions)|
      ensures forall k :: 0 <= k < |endOptions| ==>
        endOptions[k] == old(endOptions[k]).(disabled := old(endOptions[k]).value < start)
      ensures DisabledBelow(endOptions, start)
      ensures old(end) < start ==> end == start
      ensures start <= old(end) ==> end == old(end)
      ensures minYear == old(minYear) && maxYear == old(maxYear)
      ensures startOptions == old(startOptions) && start == old(start)
      ensures old(Valid()) ==> Settled()
    {
      var i := 0;
      while i < |endOptions|
        invariant 0 <= i <= |endOptions| == |old(endOptions)|
        invariant forall k :: 0 <= k < i ==>
          endOptions[k] == old(endOptions[k]).(disabled := old(endOptions[k]).value < start)
        invariant forall k :: i <= k < |endOptions| ==> endOptions[k] == old(endOptions[k])
        invariant minYear == old(minYear) && maxYear == old(maxYear)
        invariant startOptions == old(startOptions) && start == old(start) && end == old(end)
      {
        endOptions := endOptions[i := endOptions[i].(disabled := endOptions[i].value < start)];
        i := i + 1;
      }
      if end < start {
        end := start;
      }
      assert Values(endOptions) == Values(old(endOptions));
    }

    /** The user picks a start year: start options are never disabled, so any listed year. */
    method PickStart(y: int)
      requires y in Values(startOptions)
      modifies this
      ensures start == y
      ensures minYear == old(minYear) && maxYear == old(maxYear)
      ensures startOptions == old(startOptions) && endOptions == old(endOptions) && end == old(end)
    {
      start := y;
    }

    /** The user picks an end year: the browser offers only enabled options. */
    method PickEnd(y: int)
      requires y in EnabledValues(endOptions)
      modifies this
      ensures end == y
      ensures minYear == old(minYear) && maxYear == old(maxYear)
      ensures startOptions == old(startOptions) && endOptions == old(endOptions) && start == old(start)
      ensures old(Settled()) ==> Settled()
    {
      end := y;
      if old(Settled()) {
        EnabledAfterDisable(endOptions, minYear, maxYear, start);
        YearsMembership(start, maxYear, y);
      }
    }

    /**
     * A change of the start select: the start year is set, then the listener
     * registered first (UpdateEndYearOptions) runs.
     */
    method ChangeStart(y: int)
      requires Valid() && y in Values(startOptions)
      modifies this
      ensures Settled()
      ensures start == y && end == if old(end) < y then y else old(end)
      ensures EnabledValues(endOptions) == Years(start, maxYear)
      ensures minYear == old(minYear) && maxYear == old(maxYear) && startOptions == old(startOptions)
    {
      YearsMembership(minYear, maxYear, y);
      PickStart(y);
      UpdateEndYearOptions();
      EnabledAfterDisable(endOptions, minYear, maxYear, start);
    }
  }
}
