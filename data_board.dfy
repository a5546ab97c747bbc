/**
 * The single-chart script: a fixed table of happiness rows per country over
 * 2018..2022, a chart created showing India, and a country handler that swaps the
 * data and legend of the chart's first dataset.
 */
module DataBoard {
  import opened Wrappers
  import opened YearRange

  /** `sampleData`: one happiness value per year, per country. */
  const SampleData: map<string, seq<real>> := map[
    "India" := [4.0, 4.2, 4.3, 4.1, 4.0],
    "United States" := [6.9, 7.0, 6.8, 6.7, 6.9],
    "Brazil" := [6.3, 6.2, 6.1, 6.0, 6.1]
  ]

  /** `years` */
  const BoardYears: seq<int> := [2018, 2019, 2020, 2021, 2022]

  /** The years list is the five consecutive years 2018..2022. */
  lemma BoardYearsAreRange()
    ensures BoardYears == Years(2018, 2022)
    ensures |BoardYears| == 5
  {
  }

  /** Every row of the table has one value per year. */
  lemma RowsMatchYears()
    ensures forall country :: country in SampleData ==> |SampleData[country]| == |BoardYears|
  {
  }

  /** `sampleData[selected]`: the country's row, absent (`undefined`) for a country without one. */
  function RowFor(selected: string): (row: Option<seq<real>>)
    ensures row.Some? <==> selected in SampleData
    ensures row.Some? ==> row.value == SampleData[selected] && |row.value| == |BoardYears|
  {
    Get(SampleData, selected)
  }

  const LegendPrefix := "Happiness Index - "

  /** `Happiness Index - ${selectedCountry}`: the fixed prefix, after which the country reads back. */
  function CountryLegend(selected: string): (legend: string)
    ensures |legend| == |LegendPrefix| + |selected|
    ensures legend[..|LegendPrefix|] == LegendPrefix && legend[|LegendPrefix|..] == selected
  {
    LegendPrefix + selected
  }

  /** A dataset: legend text (Chart.js `label`), data (possibly undefined), border colour and fill flag. */
  datatype BoardDataset = BoardDataset(legend: string, data: Option<seq<real>>, borderColor: string, fill: bool)

  /** The chart options: responsive, and a y axis from zero with maximum 10. */
  datatype BoardOptions = BoardOptions(responsive: bool, beginAtZero: bool, yMax: int)

  const InitialDataset := BoardDataset("Happiness Index", Some(SampleData["India"]), "blue", false)

  /** The chart object the page keeps; the handler rewrites its first dataset in place. */
  class BoardChart {
    var labels: seq<int>
    var datasets: seq<BoardDataset>
    var options: BoardOptions

    /** One dataset over the fixed years, whose data, when present, has one value per label. */
    predicate Valid()
      reads this
    {
      && labels == BoardYears
      && |datasets| == 1
      && (datasets[0].data.Some? ==> |datasets[0].data.value| == |labels|)
    }

    /** The chart as created: the years as labels and India's row as dataset 0. */
    constructor ()
      ensures Valid()
      ensures labels == BoardYears && datasets == [InitialDataset]
      ensures options == BoardOptions(true, true, 10)
    {
      labels := BoardYears;
      datasets := [InitialDataset];
      options := BoardOptions(true, true, 10);
    }

    /**
     * The country select's change handler: dataset 0 takes the selected country's row
     * (none when the table has no such country) and a legend naming the country;
     * nothing else changes.
     */
    method OnCountryChange(selected: string)
      requires Valid()
      modifies this
      ensures Valid()
      ensures labels == old(labels) && options == old(options)
      ensures |datasets| == |old(datasets)|
      ensures datasets[0] == old(datasets[0]).(data := RowFor(selected), legend := CountryLegend(selected))
      ensures datasets[0].borderColor == old(datasets[0].borderColor) && datasets[0].fill == old(datasets[0].fill)
      ensures selected !in SampleData ==> datasets[0].data.None?
    {
      datasets := datasets[0 := datasets[0].(data := RowFor(selected))];
      datasets := datasets[0 := datasets[0].(legend := CountryLegend(selected))];
    }
  }
}
