# happiness-data-viz: the selection and chart-update rules, in Dafny

The repository is browser glue around Chart.js. Two scripts drive it:

- `FetchAPIs/DataBoardScript.js` has two tabs.
  - The **Countries tab** has a year-range controller over 2000..2024. It has a country select,
    filled from the World Bank country directory, and a one-dataset chart whose labels
    and title follow the selections.
  - The **India tab** has a second year-range controller over 2022..2024. Its chart has two series:
    India's happiness score and one of six indicators, both looked up per year in fixed tables.
    The indicator also sets axis texts, colours and an explanation.
- `DataBoard/DataBoardScript.js` has a fixed table of happiness rows per country. Its chart
  starts on India, and a country handler rewrites the first dataset.

The DOM is reduced to plain state. A select is a list of options plus a selected value.
A chart is an object holding the fields the handlers write. Event handlers are methods.
Data values are `real` constants that are only looked up, never computed with.
Option values are integers.

Modules:

- `Wrappers` (wrappers.dfy): `Option` for values that may be `undefined`, and `Get`, a map lookup that returns an `Option`.
- `Decimal` (decimal.dfy): how a template literal writes an integer, plus a reader that inverts it.
- `YearRange` (year_range.dfy): the year list, the `years.push` loop, and the `YearRangeControl` class.
  Both tabs use this one class; they differ only in their constants.
- `CountryList` (country_list.dfy): the directory filter, the default selection, and the `CountrySelect` class.
- `CountriesTab` (countries_tab.dfy): `updateChart`, the Countries-tab handlers, and the directory response chain.
- `IndiaTab` (india_tab.dfy): the India constants and lookup tables, the explanation text, and `updateIndiaChart`.
- `DataBoard` (data_board.dfy): the DataBoard script.

## Model

Two helpers are plain one-line definitions without contracts of their own. `Wrappers.Get` is the lookup of a property that may be missing, and `CountriesTab.CountryText` is the text a select's value shows. The rows of `DataBoard.RowFor`, `IndiaTab.SeriesOver` and `CountriesTab.UpdateChart` state what these definitions mean where they are used.

| member | source | states |
|---|---|---|
| `YearRange.Years` | FetchAPIs/DataBoardScript.js:189-190 | the year list lo..hi has hi - lo + 1 entries (none when hi < lo), and entry i is lo + i, so the years ascend one by one |
| `YearRange.YearsMembership` | FetchAPIs/DataBoardScript.js:39-49 | a year is listed exactly when lo <= y <= hi |
| `YearRange.YearsBetween` | FetchAPIs/DataBoardScript.js:189-190 | the push loop from startYear to endYear produces exactly the years startYear..endYear |
| `YearRange.EnabledAfterDisable` | FetchAPIs/DataBoardScript.js:55-59 | when the options are lo..hi and exactly those below the start are disabled, the years still pickable are max(lo, start)..hi, in order |
| `YearRange.YearRangeControl.Populate` | FetchAPIs/DataBoardScript.js:36-52 | both selects are emptied and then hold one enabled option per year lo..hi, in ascending order; start and end are the defaults; the range is valid |
| `YearRange.YearRangeControl.UpdateEndYearOptions` | FetchAPIs/DataBoardScript.js:55-62 | each end option keeps its value and is disabled iff its year is below the start; no other option field changes; an end below the start becomes the start, any other end is kept; the start select is untouched; a valid range becomes settled |
| `YearRange.YearRangeControl.PickStart` | FetchAPIs/DataBoardScript.js:64 | the user's choice that fires the start select's change listeners: the start becomes a listed year; nothing else changes |
| `YearRange.YearRangeControl.PickEnd` | FetchAPIs/DataBoardScript.js:212 | the user's choice that fires the end select's change listener: the end becomes an enabled year; nothing else changes; a settled range stays settled |
| `YearRange.YearRangeControl.ChangeStart` | FetchAPIs/DataBoardScript.js:55-64 | setting the start and running the clamp listener leaves end = max(old end, start), end >= start, and the pickable end years exactly start..maxYear |
| `CountriesTab.PopulateYearDropdowns` | FetchAPIs/DataBoardScript.js:34-52 | both selects hold exactly 2000..2024 ascending, 25 enabled options each, with start 2018 and end 2022 |
| `CountriesTab.SetUpYearRange` | FetchAPIs/DataBoardScript.js:53-65 | after populating and the first clamp, the range is settled at 2018..2022 and the end select offers 2018..2024; the start select keeps its 25 enabled options |
| `CountriesTab.ChartTitle` | FetchAPIs/DataBoardScript.js:186 | the title `<indicator> in <country> (<start>-<end>)` opens with the indicator and closes with a parenthesis |
| `Decimal.IntText` | FetchAPIs/DataBoardScript.js:186 | the text `${year}` writes for an integer is non-empty and starts with a minus sign exactly when the integer is negative |
| `Decimal.NatTextRoundTrip` | FetchAPIs/DataBoardScript.js:186 | the decimal text of a natural number is a non-empty string of digits that reads back as that number |
| `Decimal.IntTextRoundTrip` | FetchAPIs/DataBoardScript.js:186 | the text a template literal writes for an integer reads back as that integer |
| `CountriesTab.TitleDeterminesRange` | FetchAPIs/DataBoardScript.js:186 | for a fixed indicator and country, two titles `<indicator> in <country> (<start>-<end>)` are equal only if their year ranges are equal, for non-negative years |
| `CountriesTab.CountryChart.constructor` | FetchAPIs/DataBoardScript.js:92-114 | the chart starts with no labels, one empty unlabelled dataset and the title "Country Happiness Indicators" |
| `CountriesTab.CountryChart.Update` | FetchAPIs/DataBoardScript.js:178-206 | the title is `<indicator> in <country> (<start>-<end>)`; the labels are start..end (end - start + 1 of them); the datasets are replaced by one dataset labelled with the indicator, whose i-th value is the i-th random draw, one per label |
| `CountriesTab.UpdateChart` | FetchAPIs/DataBoardScript.js:178-183 | the redraw uses the current indicator, the country select's value (empty text when it has none) and the current start and end |
| `CountriesTab.OnStartYearChange` | FetchAPIs/DataBoardScript.js:209-212 | the clamp listener registered at line 64 runs before the redraw registered at line 211: the range is settled at the new start, the end is max(old end, start), the pickable end years are start..maxYear, the bounds and start options are unchanged, and the redraw plots a non-empty range from the new start with one dataset labelled with the indicator and one value per label |
| `CountriesTab.OnEndYearChange` | FetchAPIs/DataBoardScript.js:212 | after the user picks an enabled end year, only the end changes and the range stays settled; the redraw plots the non-empty range start..end with one dataset labelled with the indicator and one value per label |
| `CountriesTab.OnCountryChange` | FetchAPIs/DataBoardScript.js:210 | after the user picks an offered country, the options are unchanged, that country is selected, and the redraw titles the chart with it over start..end with one dataset labelled with the indicator and one value per label |
| `CountriesTab.OnDirectoryResponse` | FetchAPIs/DataBoardScript.js:68-90 | a rejected or unreadable response is logged and changes nothing; a body without a country list empties the select and is logged, with no redraw; otherwise the select is filled, the default is selected, and the first chart is drawn: title, labels start..end, one dataset labelled with the indicator and one value per label |
| `CountryList.KeptNamesConcat` | FetchAPIs/DataBoardScript.js:73-79 | filtering distributes over concatenation, so the kept names stay in directory order |
| `CountryList.KeptNames` | FetchAPIs/DataBoardScript.js:73-79 | the names of the entries whose region is present and whose id is not "NA" (`Listed`), in order; never more options than directory entries |
| `CountryList.KeptNamesSingle` | FetchAPIs/DataBoardScript.js:74-78 | one entry gives one option named after it when its region is present and not "NA", and none otherwise |
| `CountryList.KeptNamesMembership` | FetchAPIs/DataBoardScript.js:73-79 | a name is offered exactly when some entry with that name has a region whose id is not "NA" |
| `CountryList.DefaultSelection` | FetchAPIs/DataBoardScript.js:80-85 | nothing is selected exactly when there are no options; the selection is always an offered name; it is "India" when India is offered, and otherwise the first option |
| `CountryList.DirectoryExample` | FetchAPIs/DataBoardScript.js:71-85 | the directory [India in SAS, World in NA] offers India alone and selects it |
| `CountryList.CountrySelect.Clear` | FetchAPIs/DataBoardScript.js:72 | emptying the select leaves no options and no value |
| `CountryList.CountrySelect.Pick` | FetchAPIs/DataBoardScript.js:210 | the user's choice that fires the country select's change listener: an offered name becomes the value; the options are unchanged |
| `CountryList.CountrySelect.Fill` | FetchAPIs/DataBoardScript.js:72-85 | the options are the kept names in order, and the value is the default selection over them |
| `IndiaTab.PopulateIndiaYearDropdowns` | FetchAPIs/DataBoardScript.js:222-239 | both India selects hold exactly 2022, 2023, 2024, all enabled, with start 2022 and end 2024 |
| `IndiaTab.UpdateIndiaEndYearOptions` | FetchAPIs/DataBoardScript.js:242-250 | the India copy keeps the option values, disables exactly the years below the start, lifts an end below the start to the start, and turns a valid range into a settled one |
| `IndiaTab.SetUpIndiaYearRange` | FetchAPIs/DataBoardScript.js:240-252 | after populating and the first clamp, the India range is settled at 2022..2024 with every end year available; the start select keeps 2022, 2023, 2024 enabled |
| `IndiaTab.ParseIndicatorKey` | FetchAPIs/DataBoardScript.js:430-461 | each indicator is found by its own key in the tables |
| `IndiaTab.ParseIndicator` | FetchAPIs/DataBoardScript.js:430-461 | a select value names an indicator exactly when it is that indicator's key; a value equal to no key names none |
| `IndiaTab.HappinessCoversIndiaYears` | FetchAPIs/DataBoardScript.js:423-427 | the happiness table has exactly the years 2022, 2023, 2024 |
| `IndiaTab.IndicatorTable` | FetchAPIs/DataBoardScript.js:430-461 | each indicator's table has exactly the years 2022, 2023, 2024 |
| `IndiaTab.FriendlyName` | FetchAPIs/DataBoardScript.js:255-262 | each indicator's friendly name is non-empty |
| `IndiaTab.Emoji` | FetchAPIs/DataBoardScript.js:265-272 | each indicator's emoji is a single Unicode character |
| `IndiaTab.Color` | FetchAPIs/DataBoardScript.js:275-282 | each indicator's colour is a `#rrggbb` text: seven characters, a `#` followed by six upper-case hexadecimal digits |
| `IndiaTab.IndicatorTextsDistinct` | FetchAPIs/DataBoardScript.js:255-282 | two different indicators never share a friendly name, an emoji or a colour |
| `IndiaTab.ExplanationText` | FetchAPIs/DataBoardScript.js:508-519 | each of the six indicators has a non-empty explanation |
| `IndiaTab.Explanation` | FetchAPIs/DataBoardScript.js:507-520 | the explanation is non-empty exactly when the selected value names one of the six indicators |
| `IndiaTab.FreedomTexts` | FetchAPIs/DataBoardScript.js:255-256 | Freedom's friendly name, used as the y1 title, is "Freedom to make choices", and its explanation is the first fixed text |
| `IndiaTab.SeriesOver` | FetchAPIs/DataBoardScript.js:464-465 | the series has one entry per year, and an entry is present exactly when the table has that year |
| `IndiaTab.SeriesOverSubrange` | FetchAPIs/DataBoardScript.js:463-465 | the series for a sub-range s..e is the slice of the full range's series from s to e |
| `IndiaTab.SeriesOverCovered` | FetchAPIs/DataBoardScript.js:463-465 | over years the table covers, the series has no gaps and its i-th value is the table's value for year s + i |
| `IndiaTab.HappinessDataset` | FetchAPIs/DataBoardScript.js:478-488 | the happiness dataset is labelled "😊 Happiness Score", drawn in #FF9800 on the left axis `y`, with one value per label |
| `IndiaTab.IndicatorDataset` | FetchAPIs/DataBoardScript.js:489-500 | the indicator dataset is labelled with the indicator's emoji, a space and its friendly name, drawn in the indicator's colour on the right axis `y1`, with one value per label |
| `IndiaTab.IndiaRangeCovered` | FetchAPIs/DataBoardScript.js:463-465 | inside 2022..2024 both plotted series have a value for every label, the table's value for that year |
| `IndiaTab.IndiaTitle` | FetchAPIs/DataBoardScript.js:468 | the India chart title opens with the indicator's emoji |
| `IndiaTab.IndiaTitleDeterminesIndicator` | FetchAPIs/DataBoardScript.js:468 | different indicators give different titles |
| `IndiaTab.InitialDatasetsAreFreedomView` | FetchAPIs/DataBoardScript.js:285-313 | the datasets the chart is created with are exactly what a redraw for Freedom over 2022..2024 produces |
| `IndiaTab.InitialTitleIsFreedomTitle` | FetchAPIs/DataBoardScript.js:321 | the initial title is the title a redraw for Freedom writes |
| `IndiaTab.IndiaChart.constructor` | FetchAPIs/DataBoardScript.js:285-386 | the chart starts with labels 2022..2024, the hard-coded happiness and Freedom datasets, the Freedom title, and the y1 title "Freedom to make choices" in #4CAF50 |
| `IndiaTab.IndiaChart.Update` | FetchAPIs/DataBoardScript.js:415-520 | a value that names no indicator throws before anything is written, so nothing changes; otherwise the labels are start..end, the happiness and indicator series are per-year table lookups, and the title, y1 title, y1 colour and explanation are the indicator's |
| `IndiaTab.UpdateIndiaChart` | FetchAPIs/DataBoardScript.js:415-520 | the redraw reads the indicator value and the current range; a value naming no indicator changes nothing; otherwise the labels are start..end, the two datasets are the happiness and indicator series over them, and the title, y1 title, y1 colour and explanation are the indicator's |
| `IndiaTab.OnIndiaStartYearChange` | FetchAPIs/DataBoardScript.js:541-544 | the clamp listener registered at line 251 runs before the redraw registered at line 543: the range is settled at the new start with end max(old end, start) and pickable end years start..2024, the bounds and start options are unchanged; a value naming no indicator leaves the chart unchanged; otherwise the chart is the full redraw over a non-empty, gap-free range from the new start |
| `IndiaTab.OnIndiaEndYearChange` | FetchAPIs/DataBoardScript.js:544 | after the user picks an enabled end year, only the end changes and the range stays settled; a value naming no indicator leaves the chart unchanged; otherwise the chart is the full redraw over the non-empty range start..end |
| `DataBoard.BoardYearsAreRange` | DataBoard/DataBoardScript.js:12 | the years list is the five consecutive years 2018..2022 |
| `DataBoard.RowsMatchYears` | DataBoard/DataBoardScript.js:6-12 | every row of the sample table has as many values as there are years |
| `DataBoard.RowFor` | DataBoard/DataBoardScript.js:38 | a country's row is present exactly when the table has that country, and then it has one value per year |
| `DataBoard.CountryLegend` | DataBoard/DataBoardScript.js:39 | the legend is `Happiness Index - ` followed by the country, which reads back after the prefix |
| `DataBoard.BoardChart.constructor` | DataBoard/DataBoardScript.js:14-34 | the chart starts with the years as labels and one dataset labelled "Happiness Index" holding India's row |
| `DataBoard.BoardChart.OnCountryChange` | DataBoard/DataBoardScript.js:36-41 | dataset 0's data becomes the selected country's row, or absent with no error when the country is not one of the table's own keys; its label becomes `Happiness Index - <country>`; the labels, options, dataset count and the dataset's other fields are unchanged |

## Behaviour the model follows

- A country missing from the DataBoard table does not give an empty series. `sampleData[selected]` is `undefined`, and that is what dataset 0 receives (`RowFor` returns `None`).
- A rejected directory request, a body that is not JSON, or a JSON body `null` leaves the country select as it was: the first two fail before line 71, and `data[1]` on `null` throws at line 71 itself. All of these are `Unreadable`.
  A JSON body that is an object or array without a second element behaves differently: line 72 empties the select, and then `forEach` on `undefined` throws into the `.catch`.
  In both cases the error is logged and the first `updateChart` never runs.
- Neither script aggregates year-keyed rows or handles a `".."` not-available marker, so neither is modelled.

## Left out

- DOM access, element creation, `innerHTML` markup and listener registration. Selects are plain state, and each handler is a method that calls the listeners in their registration order.
- Chart.js: `new Chart`, `chart.update()`, `Chart.defaults`, fonts, point and border sizes, dash patterns and animation. What is kept:
  - chart labels, dataset data and dataset legends (`label`);
  - the Countries and India chart titles, and the India y1 axis title;
  - the India datasets' axis ids and border colours, and the India y1 title and tick colour;
  - the DataBoard dataset's border colour and `fill` flag, and the DataBoard options `responsive`, `beginAtZero` and `max` (DataBoard lines 26-31).
- Everything else from the chart configurations is left out, among them:
  - the `fill` flags of the Countries and India datasets;
  - the axis titles 'Value', 'Year' and 'Happiness Score' (lines 144, 159, 355 and 395).
- Colours left out, all styling only:
  - the Countries dataset's `borderColor`, `backgroundColor` and `pointBackgroundColor` (lines 198-204);
  - the India happiness dataset's `backgroundColor` and `pointBackgroundColor` (lines 482 and 486);
  - the India indicator dataset's `backgroundColor`, `<colour>33`, and `pointBackgroundColor` (lines 493 and 497).
- The indicator select's change listener (line 209) is `CountriesTab.UpdateChart` itself: the selected indicator is its `indicator` parameter, so no separate handler is written.
- The same holds on the India tab. The India indicator listener (line 542) and the page-load call `updateIndiaChart()` (line 547) are both `IndiaTab.UpdateIndiaChart`, with the selected value as its `value` parameter.
- `IndiaTab.IndiaChart.constructor`: its `explanation == ""` stands for the `indiaContent` markup before the first redraw. That markup is not part of this model, and the page-load call at line 547 overwrites it at once.
- `IndiaTab.IndiaChart`: its one field `y1Color` stands for both `title.color` and `ticks.color` (lines 472-473). They are always set to the same value.
- The `indiaContent` markup around the explanation, which adds a heading and fixed paragraphs (lines 522-538), is left out. Only the explanation text is kept.
- `fetch`, the promise chain and JSON parsing. The handler receives the already-parsed response.
  Overlapping requests, and the stale-response race they allow, are concurrency concerns and are not modelled.
- `Math.random()` (line 192): the draws are a parameter, `random(i)` being the i-th value.
- `parseInt` on option strings. Option values are integers, and an option's text, which always equals its value, is not kept.
- The fallback creation of the indicator select (lines 14-24) and `indicatorFileMap` (lines 27-31 and 183). The file path is computed but never used.
- `YearRange.YearRangeControl.Populate`: requires the defaults to lie within the range. Both call sites pass such constants. What the DOM does when a select is given a value that none of its options has is not modelled.
- `CountryList.CountrySelect.Pick`: requires the picked name to be one of the options. A user can only choose an offered option.
- `YearRange.YearRangeControl.PickEnd`: requires the picked year to be an enabled end option. The browser does not let a user choose a disabled option.
- `IndiaTab.IndiaChart.Update`: requires start <= end, which the controller guarantees; it does not model an empty range. With an empty range and a value that names no indicator, the code would not throw and would instead write `undefined` into the texts.
- `IndiaTab.Explanation`: returns the empty text for a value that names no indicator. Through `updateIndiaChart` that case is reached only for a value that names an inherited `Object.prototype` member (see `IndiaTab.IndiaChart.Update` below). For any other such value the series lookup throws first.
- `CountriesTab.OnDirectoryResponse`: covers a second element that is a list or is missing. It does not model a second element of some other type, or null entries inside the list.
- `DataBoard.BoardChart.OnCountryChange`: dataset 0's data aliases the table's array in the code. The model copies the values.
- `Wrappers.Get`: models an object literal as a map of its own keys. A JavaScript lookup also finds members inherited from `Object.prototype` (`constructor`, `toString`, `__proto__`, ...). No select on either page offers such a value, so these names are treated as absent.
- `IndiaTab.IndiaChart.Update`: for a value that names an `Object.prototype` member, `indicatorData[value]` at line 465 is a function, not `undefined`. The lookup does not throw, the series are all `undefined`, the title and axis texts show the member's text, and the explanation is empty. The model does not cover this; it treats such a value like any other unknown value (ok is false, nothing changes).
- `IndiaTab.UpdateIndiaChart`, `IndiaTab.OnIndiaStartYearChange`, `IndiaTab.OnIndiaEndYearChange`: inherit the `Object.prototype` gap of `IndiaTab.IndiaChart.Update`.
- `DataBoard.RowFor`: for a country that names an `Object.prototype` member, `sampleData[selected]` at line 38 is that member, not `undefined`. The model gives `None`. The country select never offers such a name.
- `DataBoard.BoardChart.OnCountryChange`: for such a name, dataset 0's data becomes that inherited member, where the model stores `None`.
