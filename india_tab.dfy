/**
 * The India tab: a fixed 2022..2024 year range, per-year tables for the happiness
 * score and six indicators, the per-indicator texts, and the two-series redraw
 * (`updateIndiaChart`).
 */
module IndiaTab {
  import opened Wrappers
  import opened YearRange

  const IndiaMinYear := 2022
  const IndiaMaxYear := 2024

  /** Both selects list 2022, 2023, 2024 (enabled), with start 2022 and end 2024. */
  method PopulateIndiaYearDropdowns(ctl: YearRangeControl)
    modifies ctl
    ensures ctl.Valid() && ctl.minYear == IndiaMinYear && ctl.maxYear == IndiaMaxYear
    ensures ctl.startOptions == ctl.endOptions ==
      [YearOption(2022, false), YearOption(2023, false), YearOption(2024, false)]
    ensures ctl.start == 2022 && ctl.end == 2024
  {
    ctl.Populate(IndiaMinYear, IndiaMaxYear, IndiaMinYear, IndiaMaxYear);
    assert Years(2022, 2024) == [2022, 2023, 2024];
  }

  /** The India copy of the end-year rule: disable the years below the start, lift the end to it. */
  method UpdateIndiaEndYearOptions(ctl: YearRangeControl)
    modifies ctl
    ensures Values(ctl.endOptions) == Values(old(ctl.endOptions))
    ensures DisabledBelow(ctl.endOptions, ctl.start)
    ensures ctl.end == if old(ctl.end) < ctl.start then ctl.start else old(ctl.end)
    ensures ctl.minYear == old(ctl.minYear) && ctl.maxYear == old(ctl.maxYear)
    ensures ctl.startOptions == old(ctl.startOptions) && ctl.start == old(ctl.start)
    ensures old(ctl.Valid()) ==> ctl.Settled()
  {
    ctl.UpdateEndYearOptions();
    assert Values(ctl.endOptions) == Values(old(ctl.endOptions));
  }

  /** Page load for the India year range: every end year is still available. */
  method SetUpIndiaYearRange(ctl: YearRangeControl)
    modifies ctl
    ensures ctl.Settled() && ctl.minYear == IndiaMinYear && ctl.maxYear == IndiaMaxYear
    ensures ctl.start == 2022 && ctl.end == 2024
    ensures ctl.startOptions == [YearOption(2022, false), YearOption(2023, false), YearOption(2024, false)]
    ensures EnabledValues(ctl.endOptions) == [2022, 2023, 2024]
  {
    PopulateIndiaYearDropdowns(ctl);
    UpdateIndiaEndYearOptions(ctl);
    EnabledAfterDisable(ctl.endOptions, ctl.minYear, ctl.maxYear, ctl.start);
    assert Years(2022, 2024) == [2022, 2023, 2024];
  }

  /** The indicators that have a table, friendly name, emoji, colour and explanation. */
  datatype Indicator = Freedom | GdpPerCapita | SocialSupport | Generosity | Health | GdpGrowth

  /** The key the page uses for an indicator (the indicator select's option value). */
  function Key(ind: Indicator): string {
    match ind
    case Freedom => "Freedom"
    case GdpPerCapita => "GDP_per_capita"
    case SocialSupport => "Social_support"
    case Generosity => "Generosity"
    case Health => "Health"
    case GdpGrowth => "GDP_Growth"
  }

  /** The indicator whose key a select value is; none for any other value. */
  function ParseIndicator(value: string): (r: Option<Indicator>)
    ensures r.Some? ==> Key(r.value) == value
    ensures r.None? ==> forall ind :: Key(ind) != value
  {
    if value == "Freedom" then Some(Freedom)
    else if value == "GDP_per_capita" then Some(GdpPerCapita)
    else if value == "Social_support" then Some(SocialSupport)
    else if value == "Generosity" then Some(Generosity)
    else if value == "Health" then Some(Health)
    else if value == "GDP_Growth" then Some(GdpGrowth)
    else None
  }

  /** Every indicator is found by its key, so no two indicators share a key. */
  lemma ParseIndicatorKey(ind: Indicator)
    ensures ParseIndicator(Key(ind)) == Some(ind)
  {
  }

  /** India's happiness score per year. */
  const HappinessValues: map<int, real> := map[2022 := 4.036, 2023 := 4.054, 2024 := 4.389]

  /** `indicatorData[key]`: the indicator's value per year, one for each of 2022..2024. */
  function IndicatorTable(ind: Indicator): (table: map<int, real>)
    ensures table.Keys == {2022, 2023, 2024}
  {
    match ind
    case Freedom => map[2022 := 0.685, 2023 := 0.767, 2024 := 0.914]
    case GdpPerCapita => map[2022 := 1.159, 2023 := 1.166, 2024 := 1.149]
    case SocialSupport => map[2022 := 0.674, 2023 := 0.653, 2024 := 0.860]
    case Generosity => map[2022 := 0.175, 2023 := 0.174, 2024 := 0.141]
    case Health => map[2022 := 0.252, 2023 := 0.417, 2024 := 0.316]
    case GdpGrowth => map[2022 := 7.61, 2023 := 9.19, 2024 := 6.48]
  }

  /** `friendlyNames[key]`: a non-empty name. */
  function FriendlyName(ind: Indicator): (name: string)
    ensures |name| > 0
  {
    match ind
    case Freedom => "Freedom to make choices"
    case GdpPerCapita => "Money per person"
    case SocialSupport => "Support from family & friends"
    case Generosity => "Generosity"
    case Health => "Health"
    case GdpGrowth => "GDP Growth"
  }

  /** `emojiMap[key]`: a single emoji character. */
  function Emoji(ind: Indicator): (emoji: string)
    ensures |emoji| == 1
  {
    match ind
    case Freedom => "\U{1F5FD}"
    case GdpPerCapita => "\U{1F4B5}"
    case SocialSupport => "\U{1F46A}"
    case Generosity => "\U{1F381}"
    case Health => "\U{1F3E5}"
    case GdpGrowth => "\U{1F4C8}"
  }

  /** `colorMap[key]`: a `#rrggbb` colour in upper-case hexadecimal. */
  function Color(ind: Indicator): (color: string)
    ensures |color| == 7 && color[0] == '#'
    ensures forall i :: 1 <= i < 7 ==> color[i] in "0123456789ABCDEF"
  {
    match ind
    case Freedom => "#4CAF50"
    case GdpPerCapita => "#2196F3"
    case SocialSupport => "#9C27B0"
    case Generosity => "#F44336"
    case Health => "#FF9800"
    case GdpGrowth => "#795548"
  }

  /** The happiness table, like every indicator table, has exactly one value per year 2022..2024. */
  lemma HappinessCoversIndiaYears()
    ensures HappinessValues.Keys == {2022, 2023, 2024}
  {
  }

  /** Distinct indicators have distinct names, emojis and colours, so each text tells the indicator. */
  lemma IndicatorTextsDistinct(a: Indicator, b: Indicator)
    requires a != b
    ensures FriendlyName(a) != FriendlyName(b)
    ensures Emoji(a) != Emoji(b)
    ensures Color(a) != Color(b)
  {
  }

  const FreedomExplanation :=
    "When people in India feel free to make their own choices, they feel much happier! This is the strongest connection we found."
  const GdpPerCapitaExplanation :=
    "When people in India have more money to spend, they tend to be happier. This is the second strongest connection."
  const SocialSupportExplanation :=
    "Having family and friends to count on makes Indians happier. This is the third strongest connection."
  const GenerosityExplanation :=
    "Surprisingly, when generosity goes up, happiness doesn't always follow. Scientists are still trying to understand why!"
  const HealthExplanation :=
    "Even though health is important, the numbers show it doesn't always match with happiness levels in India."
  const GdpGrowthExplanation :=
    "When India's economy grows quickly, it doesn't always mean people feel happier right away."

  /** The explanation text of each indicator. */
  function ExplanationText(ind: Indicator): (text: string)
    ensures |text| > 0
  {
    match ind
    case Freedom => FreedomExplanation
    case GdpPerCapita => GdpPerCapitaExplanation
    case SocialSupport => SocialSupportExplanation
    case Generosity => GenerosityExplanation
    case Health => HealthExplanation
    case GdpGrowth => GdpGrowthExplanation
  }

  /**
   * The explanation if-chain on the selected value: the keys are distinct, so it is the
   * text of the indicator the value names, and empty for any other value.
   */
  function Explanation(value: string): (text: string)
    ensures text != "" <==> ParseIndicator(value).Some?
  {
    match ParseIndicator(value)
    case Some(ind) => ExplanationText(ind)
    case None => ""
  }

  /** Freedom: the axis title and the explanation of the Freedom indicator. */
  lemma FreedomTexts()
    ensures FriendlyName(Freedom) == "Freedom to make choices"
    ensures Explanation(Key(Freedom)) == FreedomExplanation
  {
  }

  /** `years.map(y => table[y])`: the value of each year, absent where the table has none. */
  function SeriesOver(table: map<int, real>, years: seq<int>): (series: seq<Option<real>>)
    ensures |series| == |years|
    ensures forall i :: 0 <= i < |years| ==> (series[i].Some? <==> years[i] in table)
  {
    seq(|years|, i requires 0 <= i < |years| => Get(table, years[i]))
  }

  /** A sub-range's series is the matching slice of the whole range's series. */
  lemma SeriesOverSubrange(table: map<int, real>, lo: int, hi: int, s: int, e: int)
    requires lo <= s <= e <= hi
    ensures SeriesOver(table, Years(s, e)) == SeriesOver(table, Years(lo, hi))[s - lo..e - lo + 1]
  {
  }

  /** Over a range the table covers, the series has no gaps and holds the table's values. */
  lemma SeriesOverCovered(table: map<int, real>, s: int, e: int)
    requires forall y :: s <= y <= e ==> y in table
    ensures forall i :: 0 <= i < |SeriesOver(table, Years(s, e))| ==>
      SeriesOver(table, Years(s, e))[i] == Some(table[s + i])
  {
  }

  /** One dataset of the India chart; its fill style and dash pattern are left out. */
  datatype IndiaDataset = IndiaDataset(legend: string, data: seq<Option<real>>, color: string, axis: string)

  const HappinessLegend := "\U{1F60A} Happiness Score"

  /** The happiness series: one value per label, on the left axis, in orange. */
  function HappinessDataset(years: seq<int>): (d: IndiaDataset)
    ensures d.legend == HappinessLegend && d.color == "#FF9800" && d.axis == "y"
    ensures |d.data| == |years|
  {
    IndiaDataset(HappinessLegend, SeriesOver(HappinessValues, years), "#FF9800", "y")
  }

  /** The indicator series: one value per label, on the right axis, legend and colour after the indicator. */
  function IndicatorDataset(ind: Indicator, years: seq<int>): (d: IndiaDataset)
    ensures |d.legend| == |FriendlyName(ind)| + 2
    ensures d.legend[..1] == Emoji(ind) && d.legend[2..] == FriendlyName(ind)
    ensures d.color == Color(ind) && d.axis == "y1"
    ensures |d.data| == |years|
  {
    IndiaDataset(Emoji(ind) + " " + FriendlyName(ind), SeriesOver(IndicatorTable(ind), years), Color(ind), "y1")
  }

  /** The India chart title: it opens with the indicator's emoji. */
  function IndiaTitle(ind: Indicator): (title: string)
    ensures |title| > 1 && title[..1] == Emoji(ind)
  {
    Emoji(ind) + " How " + FriendlyName(ind) + " Affects India's Happiness"
  }

  /** The datasets the chart is created with, before the first redraw. */
  const InitialIndiaDatasets: seq<IndiaDataset> := [
    IndiaDataset(HappinessLegend, [Some(4.036), Some(4.054), Some(4.389)], "#FF9800", "y"),
    IndiaDataset("\U{1F5FD} Freedom to make choices", [Some(0.685), Some(0.767), Some(0.914)], "#4CAF50", "y1")
  ]

  const InitialIndiaTitle := "\U{1F5FD} How Freedom to make choices Affects India's Happiness"

  /** The title names the indicator: distinct indicators get distinct titles, as their emojis differ. */
  lemma IndiaTitleDeterminesIndicator(a: Indicator, b: Indicator)
    requires a != b
    ensures IndiaTitle(a) != IndiaTitle(b)
  {
    IndicatorTextsDistinct(a, b);
    assert IndiaTitle(a)[..1] != IndiaTitle(b)[..1];
  }

  /** The hard-coded first datasets are what a redraw for Freedom over 2022..2024 draws. */
  lemma InitialDatasetsAreFreedomView()
    ensures InitialIndiaDatasets ==
      [HappinessDataset(Years(2022, 2024)), IndicatorDataset(Freedom, Years(2022, 2024))]
  {
    var years := Years(2022, 2024);
    assert years == [2022, 2023, 2024];
    assert Emoji(Freedom) + " " + FriendlyName(Freedom) == "\U{1F5FD} Freedom to make choices";
    assert SeriesOver(HappinessValues, years) == [Some(4.036), Some(4.054), Some(4.389)];
    assert SeriesOver(IndicatorTable(Freedom), years) == [Some(0.685), Some(0.767), Some(0.914)];
  }

  lemma JoinHow()
    ensures "\U{1F5FD}" + " How " == "\U{1F5FD} How "
  {
  }

  lemma JoinName()
    ensures "\U{1F5FD} How " + "Freedom to make choices" == "\U{1F5FD} How Freedom to make choices"
  {
  }

  lemma JoinTail()
    ensures "\U{1F5FD} How Freedom to make choices" + " Affects India's Happiness" == InitialIndiaTitle
  {
  }

  /** The line-321 literal is the three parts of the Freedom title joined. */
  lemma FreedomTitleJoin()
    ensures "\U{1F5FD}" + " How " + "Freedom to make choices" + " Affects India's Happiness" == InitialIndiaTitle
  {
    // literal concatenations are evaluated one join at a time
    JoinHow();
    JoinName();
    JoinTail();
  }

  /** The hard-coded first title is the title a redraw for Freedom writes. */
  lemma InitialTitleIsFreedomTitle()
    ensures InitialIndiaTitle == IndiaTitle(Freedom)
  {
    assert Emoji(Freedom) == "\U{1F5FD}";
    assert FriendlyName(Freedom) == "Freedom to make choices";
    FreedomTitleJoin();
  }

  /** The chart fields and the explanation text the India tab writes. */
  class IndiaChart {
    var labels: seq<int>
    var datasets: seq<IndiaDataset>
    var title: string
    var y1Title: string
    var y1Color: string
    var explanation: string

    /** The chart as first created; the explanation area starts as the page markup leaves it, here empty. */
    constructor ()
      ensures labels == [2022, 2023, 2024] && datasets == InitialIndiaDatasets
      ensures title == InitialIndiaTitle
      ensures y1Title == "Freedom to make choices" && y1Color == "#4CAF50"
      ensures explanation == ""
    {
      labels := [2022, 2023, 2024];
      datasets := InitialIndiaDatasets;
      title := InitialIndiaTitle;
      y1Title, y1Color := "Freedom to make choices", "#4CAF50";
      explanation := "";
    }

    /**
     * `updateIndiaChart` for the given selections. A value that names no indicator makes
     * the series lookup throw before anything is written (ok is false). Otherwise the
     * labels are the years, both series are lookups of those years, and the titles,
     * colour and explanation follow the indicator.
     */
    method Update(value: string, startYear: int, endYear: int) returns (ok: bool)
      requires startYear <= endYear
      modifies this
      ensures ok <==> ParseIndicator(value).Some?
      ensures !ok ==> unchanged(this)
      ensures ok ==>
        var ind := ParseIndicator(value).value;
        && labels == Years(startYear, endYear)
        && datasets == [HappinessDataset(labels), IndicatorDataset(ind, labels)]
        && title == IndiaTitle(ind)
        && y1Title == FriendlyName(ind) && y1Color == Color(ind)
        && explanation == Explanation(value)
    {
      var years := YearsBetween(startYear, endYear);
      var parsed := ParseIndicator(value);
      if parsed.None? {
        // `indicatorData[selectedIndicator][y]` reads a property of undefined: TypeError
        return false;
      }
      var ind := parsed.value;
      title := IndiaTitle(ind);
      y1Title := FriendlyName(ind);
      y1Color := Color(ind);
      labels := years;
      datasets := [HappinessDataset(years), IndicatorDataset(ind, years)];
      explanation := Explanation(value);
      ok := true;
    }
  }

  /** `updateIndiaChart()`: reads the indicator select and the year range, then redraws. */
  method UpdateIndiaChart(ctl: YearRangeControl, value: string, chart: IndiaChart) returns (ok: bool)
    requires ctl.Valid()
    modifies chart
    ensures ok <==> ParseIndicator(value).Some?
    ensures !ok ==> unchanged(chart)
    ensures ok ==>
      var ind := ParseIndicator(value).value;
      && chart.labels == Years(ctl.start, ctl.end)
      && chart.datasets == [HappinessDataset(chart.labels), IndicatorDataset(ind, chart.labels)]
      && chart.title == IndiaTitle(ind)
      && chart.y1Title == FriendlyName(ind) && chart.y1Color == Color(ind)
      && chart.explanation == Explanation(value)
  {
    ok := chart.Update(value, ctl.start, ctl.end);
  }

  /** Within 2022..2024 both series have a value for every label, the table's value for that year. */
  lemma IndiaRangeCovered(ind: Indicator, s: int, e: int)
    requires IndiaMinYear <= s <= e <= IndiaMaxYear
    ensures forall i :: 0 <= i < e - s + 1 ==>
      && HappinessDataset(Years(s, e)).data[i] == Get(HappinessValues, s + i)
      && IndicatorDataset(ind, Years(s, e)).data[i] == Get(IndicatorTable(ind), s + i)
      && HappinessDataset(Years(s, e)).data[i].Some? && IndicatorDataset(ind, Years(s, e)).data[i].Some?
  {
    HappinessCoversIndiaYears();
    var years := Years(s, e);
    forall i | 0 <= i < e - s + 1
      ensures && HappinessDataset(years).data[i] == Get(HappinessValues, s + i)
              && IndicatorDataset(ind, years).data[i] == Get(IndicatorTable(ind), s + i)
              && HappinessDataset(years).data[i].Some? && IndicatorDataset(ind, years).data[i].Some?
    {
      assert years[i] == s + i;
      assert s + i in HappinessValues && s + i in IndicatorTable(ind);
    }
  }

  /**
   * A change of the India start select: the clamp listener runs before the redraw, so
   * the redraw plots a gap-free range starting at the new start.
   */
  method OnIndiaStartYearChange(ctl: YearRangeControl, y: int, value: string, chart: IndiaChart)
    returns (ok: bool)
    requires ctl.Valid() && ctl.minYear == IndiaMinYear && ctl.maxYear == IndiaMaxYear
    requires y in Values(ctl.startOptions)
    modifies ctl, chart
    ensures ctl.Settled() && ctl.start == y
    ensures ctl.end == if old(ctl.end) < y then y else old(ctl.end)
    ensures EnabledValues(ctl.endOptions) == Years(y, IndiaMaxYear)
    ensures ctl.minYear == IndiaMinYear && ctl.maxYear == IndiaMaxYear
    ensures ctl.startOptions == old(ctl.startOptions)
    ensures ok <==> ParseIndicator(value).Some?
    ensures !ok ==> unchanged(chart)
    ensures ok ==>
      var ind := ParseIndicator(value).value;
      && chart.labels == Years(y, ctl.end) && |chart.labels| >= 1
      && chart.datasets == [HappinessDataset(chart.labels), IndicatorDataset(ind, chart.labels)]
      && chart.title == IndiaTitle(ind)
      && chart.y1Title == FriendlyName(ind) && chart.y1Color == Color(ind)
      && chart.explanation == Explanation(value)
      && forall i :: 0 <= i < |chart.labels| ==>
           && chart.datasets[0].data[i] == Get(HappinessValues, y + i)
           && chart.datasets[1].data[i] == Get(IndicatorTable(ind), y + i)
           && chart.datasets[0].data[i].Some? && chart.datasets[1].data[i].Some?
  {
    ctl.ChangeStart(y);
    ok := UpdateIndiaChart(ctl, value, chart);
    if ok {
      IndiaRangeCovered(ParseIndicator(value).value, ctl.start, ctl.end);
    }
  }

  /** A change of the India end select: the user picked an enabled year, then the redraw runs. */
  method OnIndiaEndYearChange(ctl: YearRangeControl, y: int, value: string, chart: IndiaChart)
    returns (ok: bool)
    requires ctl.Settled() && y in EnabledValues(ctl.endOptions)
    modifies ctl, chart
    ensures ctl.Settled() && ctl.end == y
    ensures ctl.start == old(ctl.start) && ctl.minYear == old(ctl.minYear) && ctl.maxYear == old(ctl.maxYear)
    ensures ctl.startOptions == old(ctl.startOptions) && ctl.endOptions == old(ctl.endOptions)
    ensures ok <==> ParseIndicator(value).Some?
    ensures !ok ==> unchanged(chart)
    ensures ok ==>
      var ind := ParseIndicator(value).value;
      && chart.labels == Years(ctl.start, y) && |chart.labels| >= 1
      && chart.datasets == [HappinessDataset(chart.labels), IndicatorDataset(ind, chart.labels)]
      && chart.title == IndiaTitle(ind)
      && chart.y1Title == FriendlyName(ind) && chart.y1Color == Color(ind)
      && chart.explanation == Explanation(value)
  {
    ctl.PickEnd(y);
    ok := UpdateIndiaChart(ctl, value, chart);
  }
}
