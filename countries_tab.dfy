/**
 * The Countries tab: its year range 2000..2024, the chart redraw (`updateChart`) and
 * the handlers that feed it, with the chosen selections read from the controls.
 */
module CountriesTab {
  import opened Wrappers
  import opened Decimal
  import opened YearRange
  import opened CountryList

  const MinYear := 2000
  const MaxYear := 2024
  const DefaultStartYear := 2018
  const DefaultEndYear := 2022

  /** Both selects list 2000..2024 (25 enabled options), with start 2018 and end 2022. */
  method PopulateYearDropdowns(ctl: YearRangeControl)
    modifies ctl
    ensures ctl.Valid() && ctl.minYear == MinYear && ctl.maxYear == MaxYear
    ensures ctl.startOptions == ctl.endOptions == FreshOptions(Years(MinYear, MaxYear))
    ensures Values(ctl.startOptions) == Years(MinYear, MaxYear)
    ensures Values(ctl.endOptions) == Years(MinYear, MaxYear)
    ensures |ctl.startOptions| == 25 && |ctl.endOptions| == 25
    ensures forall i :: 0 <= i < 25 ==> ctl.startOptions[i] == ctl.endOptions[i] == YearOption(MinYear + i, false)
    ensures ctl.start == DefaultStartYear && ctl.end == DefaultEndYear
  {
    ctl.Populate(MinYear, MaxYear, DefaultStartYear, DefaultEndYear);
    ValuesOfFresh(Years(MinYear, MaxYear));
  }

  /**
   * Page load for the year range: populate, then run the start listener once, so
   * the end select offers 2018..2024.
   */
  method SetUpYearRange(ctl: YearRangeControl)
    modifies ctl
    ensures ctl.Settled()
    ensures ctl.minYear == MinYear && ctl.maxYear == MaxYear
    ensures ctl.start == DefaultStartYear && ctl.end == DefaultEndYear
    ensures ctl.startOptions == FreshOptions(Years(MinYear, MaxYear))
    ensures EnabledValues(ctl.endOptions) == Years(DefaultStartYear, MaxYear)
  {
    PopulateYearDropdowns(ctl);
    ctl.UpdateEndYearOptions();
    EnabledAfterDisable(ctl.endOptions, ctl.minYear, ctl.maxYear, ctl.start);
  }

  /** The one dataset of the chart: its legend text (Chart.js `label`) and its values; styling is left out. */
  datatype SampleDataset = SampleDataset(legend: string, data: seq<real>)

  /** `${indicator} in ${country} (${startYear}-${endYear})` */
  function ChartTitle(indicator: string, country: string, startYear: int, endYear: int): (t: string)
    ensures |t| > |indicator| && t[..|indicator|] == indicator && t[|t| - 1] == ')'
  {
    indicator + " in " + country + " (" + IntText(startYear) + "-" + IntText(endYear) + ")"
  }

  /** Position of the first `c` in `s`, or |s| when there is none. */
  function IndexOf(s: string, c: char): nat {
    if |s| == 0 || s[0] == c then 0 else 1 + IndexOf(s[1..], c)
  }

  lemma {:induction false} IndexOfAfter(a: string, c: char, rest: string)
    requires c !in a
    ensures IndexOf(a + [c] + rest, c) == |a|
    decreases |a|
  {
    if |a| > 0 {
      assert (a + [c] + rest)[1..] == a[1..] + [c] + rest;
      IndexOfAfter(a[1..], c, rest);
    }
  }

  lemma SplitAtMinus(a: string, b: string, a': string, b': string)
    requires '-' !in a && '-' !in a'
    requires a + "-" + b == a' + "-" + b'
    ensures a == a' && b == b'
  {
    var s := a + "-" + b;
    IndexOfAfter(a, '-', b);
    IndexOfAfter(a', '-', b');
    assert a == s[..|a|] == a';
    assert b == s[|a| + 1..] == b';
  }

  lemma DigitsHaveNoMinus(n: nat)
    ensures '-' !in NatText(n)
  {
    NatTextRoundTrip(n);
    assert !IsDigit('-');
  }

  /** After a common prefix, the text `<s>-<e>)` determines both numbers. */
  lemma RangeTextDetermines(prefix: string, s: nat, e: nat, s': nat, e': nat)
    requires prefix + (NatText(s) + "-" + NatText(e) + ")") == prefix + (NatText(s') + "-" + NatText(e') + ")")
    ensures s == s' && e == e'
  {
    var tail := NatText(s) + "-" + NatText(e);
    var tail' := NatText(s') + "-" + NatText(e');
    var t := prefix + (tail + ")");
    assert tail + ")" == t[|prefix|..] == tail' + ")";
    assert tail == (tail + ")")[..|tail|];
    assert tail' == (tail' + ")")[..|tail'|];
    // digits only, so the first '-' of each tail is the separator
    DigitsHaveNoMinus(s);
    DigitsHaveNoMinus(s');
    SplitAtMinus(NatText(s), NatText(e), NatText(s'), NatText(e'));
    NatTextRoundTrip(s);
    NatTextRoundTrip(s');
    NatTextRoundTrip(e);
    NatTextRoundTrip(e');
  }

  /** For non-negative years the title is a fixed prefix followed by `<s>-<e>)`. */
  lemma ChartTitleOfNats(indicator: string, country: string, s: nat, e: nat)
    ensures ChartTitle(indicator, country, s, e) ==
      (indicator + " in " + country + " (") + (NatText(s) + "-" + NatText(e) + ")")
  {
    assert IntText(s) == NatText(s) && IntText(e) == NatText(e);
  }

  /** For the same indicator and country, the title determines the year range. */
  lemma TitleDeterminesRange(indicator: string, country: string, s: nat, e: nat, s': nat, e': nat)
    requires ChartTitle(indicator, country, s, e) == ChartTitle(indicator, country, s', e')
    ensures s == s' && e == e'
  {
    ChartTitleOfNats(indicator, country, s, e);
    ChartTitleOfNats(indicator, country, s', e');
    RangeTextDetermines(indicator + " in " + country + " (", s, e, s', e');
  }

  /** `country` as a template literal shows a select's value: empty when it has none. */
  function CountryText(value: Option<string>): string {
    value.GetOr("")
  }

  /** The chart fields that the Countries tab writes. */
  class CountryChart {
    var labels: seq<int>
    var datasets: seq<SampleDataset>
    var title: string

    /** The chart as first created: no labels, one empty unlabelled dataset, a fixed title. */
    constructor ()
      ensures labels == [] && datasets == [SampleDataset("", [])]
      ensures title == "Country Happiness Indicators"
    {
      labels, datasets := [], [SampleDataset("", [])];
      title := "Country Happiness Indicators";
    }

    /**
     * `updateChart` for the given selections: the title names them, the labels are
     * startYear..endYear, and the datasets are replaced by a single one whose legend is
     * the indicator holding one random draw (`random(i)` is the i-th) per label.
     */
    method Update(indicator: string, country: string, startYear: int, endYear: int, random: nat -> real)
      modifies this
      ensures title == ChartTitle(indicator, country, startYear, endYear)
      ensures labels == Years(startYear, endYear)
      ensures |labels| == if startYear <= endYear then endYear - startYear + 1 else 0
      ensures |datasets| == 1 && datasets[0].legend == indicator
      ensures |datasets[0].data| == |labels|
      ensures forall i :: 0 <= i < |labels| ==> datasets[0].data[i] == random(i)
    {
      title := ChartTitle(indicator, country, startYear, endYear);
      var years := YearsBetween(startYear, endYear);
      var sampleData := seq(|years|, i requires 0 <= i < |years| => random(i));
      labels := years;
      datasets := [SampleDataset(indicator, sampleData)];
    }
  }

  /** `updateChart()`: reads the indicator, the country select and the year range, then redraws. */
  method UpdateChart(ctl: YearRangeControl, indicator: string, sel: CountrySelect, chart: CountryChart, random: nat -> real)
    modifies chart
    ensures chart.title == ChartTitle(indicator, CountryText(sel.value), ctl.start, ctl.end)
    ensures chart.labels == Years(ctl.start, ctl.end)
    ensures |chart.datasets| == 1 && chart.datasets[0].legend == indicator
    ensures |chart.datasets[0].data| == |chart.labels|
  {
    chart.Update(indicator, CountryText(sel.value), ctl.start, ctl.end, random);
  }

  /**
   * A change of the start select runs its two listeners in registration order: the
   * end clamp, then the redraw, which therefore plots a non-empty range from the new start.
   */
  method OnStartYearChange(ctl: YearRangeControl, y: int, indicator: string, sel: CountrySelect,
                           chart: CountryChart, random: nat -> real)
    requires ctl.Valid() && y in Values(ctl.startOptions)
    modifies ctl, chart
    ensures ctl.Settled() && ctl.start == y
    ensures ctl.end == if old(ctl.end) < y then y else old(ctl.end)
    ensures EnabledValues(ctl.endOptions) == Years(y, ctl.maxYear)
    ensures ctl.minYear == old(ctl.minYear) && ctl.maxYear == old(ctl.maxYear)
    ensures ctl.startOptions == old(ctl.startOptions)
    ensures chart.labels == Years(ctl.start, ctl.end)
    ensures |chart.labels| >= 1 && chart.labels[0] == y
    ensures chart.title == ChartTitle(indicator, CountryText(sel.value), ctl.start, ctl.end)
    ensures |chart.datasets| == 1 && chart.datasets[0].legend == indicator
    ensures |chart.datasets[0].data| == |chart.labels|
  {
    ctl.ChangeStart(y);
    UpdateChart(ctl, indicator, sel, chart, random);
  }

  /** A change of the end select: the user picked an enabled year, then the redraw runs. */
  method OnEndYearChange(ctl: YearRangeControl, y: int, indicator: string, sel: CountrySelect,
                         chart: CountryChart, random: nat -> real)
    requires ctl.Settled() && y in EnabledValues(ctl.endOptions)
    modifies ctl, chart
    ensures ctl.Settled() && ctl.end == y
    ensures ctl.start == old(ctl.start) && ctl.minYear == old(ctl.minYear) && ctl.maxYear == old(ctl.maxYear)
    ensures ctl.startOptions == old(ctl.startOptions) && ctl.endOptions == old(ctl.endOptions)
    ensures chart.labels == Years(ctl.start, y) && |chart.labels| >= 1
    ensures chart.title == ChartTitle(indicator, CountryText(sel.value), ctl.start, ctl.end)
    ensures |chart.datasets| == 1 && chart.datasets[0].legend == indicator
    ensures |chart.datasets[0].data| == |chart.labels|
  {
    ctl.PickEnd(y);
    UpdateChart(ctl, indicator, sel, chart, random);
  }

  /** A change of the country select: the user picked one of its options, then the redraw runs. */
  method OnCountryChange(ctl: YearRangeControl, name: string, indicator: string, sel: CountrySelect,
                         chart: CountryChart, random: nat -> real)
    requires name in sel.options
    modifies sel, chart
    ensures sel.options == old(sel.options) && sel.value == Some(name)
    ensures chart.title == ChartTitle(indicator, name, ctl.start, ctl.end)
    ensures chart.labels == Years(ctl.start, ctl.end)
    ensures |chart.datasets| == 1 && chart.datasets[0].legend == indicator
    ensures |chart.datasets[0].data| == |chart.labels|
  {
    sel.Pick(name);
    UpdateChart(ctl, indicator, sel, chart, random);
  }

  /** What the directory request delivers: nothing usable, or parsed JSON whose second element may be missing. */
  datatype DirectoryResponse =
    | Unreadable
    | Parsed(countries: Option<seq<CountryRecord>>)

  /**
   * The `.then`/`.catch` chain of the directory request. A rejected request or an
   * unparsable body is logged and changes nothing. A body without a country list
   * empties the select before the failure is logged. Otherwise the select is filled
   * and the first chart is drawn.
   */
  method OnDirectoryResponse(resp: DirectoryResponse, ctl: YearRangeControl, indicator: string,
                             sel: CountrySelect, chart: CountryChart, random: nat -> real)
    returns (logged: bool)
    modifies sel, chart
    ensures logged <==> !(resp.Parsed? && resp.countries.Some?)
    ensures resp.Unreadable? ==>
      sel.options == old(sel.options) && sel.value == old(sel.value) && unchanged(chart)
    ensures resp.Parsed? && resp.countries.None? ==>
      sel.options == [] && sel.value == None && unchanged(chart)
    ensures resp.Parsed? && resp.countries.Some? ==>
      && sel.options == KeptNames(resp.countries.value)
      && sel.value == DefaultSelection(sel.options)
      && chart.labels == Years(ctl.start, ctl.end)
      && chart.title == ChartTitle(indicator, CountryText(sel.value), ctl.start, ctl.end)
      && |chart.datasets| == 1 && chart.datasets[0].legend == indicator
      && |chart.datasets[0].data| == |chart.labels|
  {
    match resp
    case Unreadable =>
      logged := true;
    case Parsed(None) =>
      sel.Clear();
      logged := true;
    case Parsed(Some(countries)) =>
      sel.Fill(countries);
      UpdateChart(ctl, indicator, sel, chart, random);
      logged := false;
  }
}
