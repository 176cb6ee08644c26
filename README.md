# COVID-19 policy dashboard, modelled in Dafny

The repository holds a D3 dashboard of COVID-19 statistics and of the Oxford
policy-response indicators. It also holds the Python script that downloads,
aligns and recodes the two datasets the dashboard reads.

The dashboard (`viz_all.js`) combines five panels:

- a choropleth map of one attribute on the selected day; clicking countries builds the country selection;
- a bar chart of the selected countries on that day;
- a line chart of the selected countries over time, where a click singles out one line;
- a table of the selected countries' latest values for the attributes of one category;
- a scatter plot of every country on its own selected day.

The map, bar and line panels share one date slider with a Play button, and so does the scatter plot.

The stand-alone pages `viz1a.js` (map), `viz1b.js` (bars), `viz1c.js` (lines), `viz2.js` (lines and table)
and `viz3.js` (scatter) are earlier versions of the same panels. Each one differs in small rules. Examples:

- which empty values count as "No data";
- whether a negative maximum is kept;
- whether values are read as `v > 0 ? v : 0` before the maximum is taken.

`data/data_downloader.py` prepares the data before the dashboard reads it:

- reformats dates;
- cuts both datasets to their common window of days and to their common countries;
- drops Oxford's regional rows;
- recodes the Oxford policy indicators ("2G", "3T", ...) into labels ("2-National", "3-Local"), so that string order matches level order.

The model is organised as follows:

- Pure rules (scale maxima, colours, ticks, texts, recoders, filters) are functions, with lemmas about them.
- The state of each page is a class whose event handlers are methods with `modifies` clauses.
- Each handler's `ensures` ties the new state to a specification function, and the lemmas state the properties of that function.
- The Python script's stateful steps are methods of `DataPrep.Frame`, a table of named columns, and `DataPrep.DatasetsDict`, the script's dictionary of three tables.

Modules:

- `Base`: lists and filters.
- `StrOrder`: JavaScript's default string order and `.sort()`.
- `JsValues`: cells and coercions.
- `Scales`: shared panel rules.
- `Selection`: the country selection.
- `DisplayFlags`: the two colour options.
- `LineFocus`: the line chart's focus.
- `Tables`: the table.
- `Menus`: the dropdown menus.
- `Playback`: the date slider.
- `VizAll`, `Viz1a`, `Viz1b`, `Viz1c`, `Viz2`, `Viz3`: the pages.
- `DataPrep`: the Python script.

## Model

| member | source | states |
|---|---|---|
| Base.Distinct | viz1b.js:521 | `Array.from(new Set(xs))`: each value of the input once and nothing else, ordered by each value's first position in the input |
| Base.Without | viz_all.js:391 | removing one name keeps every other element and its order |
| StrOrder.LeTotal | viz1b.js:522 | JavaScript's default string order is total |
| StrOrder.LeAntisymmetric | viz1b.js:522 | two strings ordered both ways are equal |
| StrOrder.LeTransitive | viz1b.js:522 | the order is transitive |
| StrOrder.Insert | viz1b.js:522 | inserting into a sorted list keeps it sorted and adds exactly that element (multiset) |
| StrOrder.InsertKeepsNoDup | viz1b.js:522 | inserting a new string into a duplicate-free sorted list keeps it duplicate-free |
| StrOrder.Sort | viz1b.js:522 | `.sort()` returns a sorted permutation of its input |
| StrOrder.SortDistinctIsStrict | viz1b.js:521-522 | sorting the distinct values gives a strictly increasing list |
| Base.Filter | viz_all.js:269 | `filter`, like the script's row queries, keeps exactly the elements passing the test; a single element is kept iff it passes |
| Base.FilterConcat | viz_all.js:816 | filtering a concatenation filters each part and concatenates the results, so order and multiplicity are kept |
| Base.FilterFirst | viz2.js:484-490 | the first element a filter keeps is an element of the input that every earlier element fails |
| Base.FilterInOrder | viz_all.js:816 | any two elements a filter keeps appear at two positions of the input in the same order |
| Base.KeepInInOrder | data/data_downloader.py:123 | keeping the elements found in another list keeps them in the order of the first |
| Scales.LookupMeta | viz_all.js:270 | the first dictionary entry with that variable name, none when there is none |
| Scales.CountriesOf | viz_all.js:694 | `d3.groups` keys: each country with a row exactly once, ordered by each country's first row |
| Scales.TextColumn | viz_all.js:305 | the text of every row's field, row by row |
| Scales.PaletteFor | viz_all.js:295-301 | greens iff larger is good, yellow-browns iff bad, purples otherwise; discrete iff ordinal |
| Scales.QuantileSample | viz_all.js:309 | a quantile sample is missing exactly for NaN and is never negative |
| Scales.Read | viz_all.js:469 | the `v > 0 ? v : 0` accessor always gives a number at least 0; the plain accessor gives the coerced value |
| Scales.Column | viz_all.js:469 | one read per row, in row order |
| Scales.D3Max | viz_all.js:317 | d3.max: the largest number present, undefined exactly when no number is present |
| Scales.D3MaxUnique | viz_all.js:317 | that characterisation determines the maximum |
| Scales.ClampedMaxIsNonNegative | viz_all.js:469 | over a non-empty set of rows, the clamped maximum exists and is at least 0 |
| Scales.BarMax | viz_all.js:465-491 | bar axis: ordinal attributes take the whole-dataset maximum of their numeric column; aggregate indices take 100 unless scaled to date; others take the selected countries' maximum, of the day or of all days |
| Scales.LineMax | viz_all.js:638-663 | line axis: the whole-dataset ordinal maximum, 100 for aggregate indices, otherwise the selected countries' maximum over all days |
| Scales.ScatterAxisMax | viz_all.js:885-906 | scatter axis: the ordinal maximum over all data (present iff there is data), 100 for aggregates, otherwise the maximum of the plotted rows; never negative |
| Scales.OrdinalTickValues | viz_all.js:476 | `d3.range(0, max + 0.5, 0.5)`: ticks at k/2, the last at or past the maximum; none for an undefined maximum |
| Scales.OrdinalTicksLabelled | viz_all.js:470-477 | tick k is labelled with the k-th level, and the levels run in string order |
| Scales.OrdinalLegend | viz_all.js:305 | the legend lists each value's key exactly once, sorted; "NA" and "" never appear |
| Scales.DataText | viz_all.js:562-566 | "No data" iff NaN, "NA" or ""; numbers shown as numbers; missing fields show nothing |
| Scales.NaText | viz_all.js:364-369 | map tooltip: "No data" only for NaN and "NA"; an empty string stays empty |
| Scales.BarLength | viz_all.js:539 | a bar is as long as a positive value and empty otherwise |
| Scales.NoDataBarIsEmpty | viz_all.js:607-608 | a bar labelled "No data" has length 0 |
| Scales.BarsOf | viz_all.js:519-608 | one bar per row of the day, each with its length and its "No data" label |
| Scales.LinePoint | viz_all.js:697-699 | a line has a gap exactly where isNaN holds; negative values are drawn at 0 |
| Scales.ScatterCoordinate | viz_all.js:987-988 | NaN is placed at 0, every other value as it is |
| Scales.DotsOf | viz_all.js:945-988 | one dot per row, placed by the plotted columns, with tooltips from the selected attributes |
| Scales.NoDataDotOnAxis | viz_all.js:964-988 | a dot whose tooltip reads "No data" sits on the axis |
| Selection.MapClick | viz_all.js:379-410 | a ctrl-click toggles the country and keeps the others; a plain click leaves just that country, or nothing if it was selected; no duplicates arise |
| Selection.CtrlClickTwiceRestores | viz_all.js:382-393 | two ctrl-clicks on an unselected country restore the selection |
| Selection.CtrlClickRemovesInPlace | viz_all.js:391 | a ctrl-click on a selected country removes it and keeps the rest in order |
| Selection.MergeChecked | viz1b.js:539-541 | the kept countries in their old order, then the newly checked ones; exactly the checked countries, without duplicates |
| Selection.MergeIdempotent | viz1b.js:539-541 | the same change applied twice gives the same selection |
| Selection.MergeSameCountriesKeepsOrder | viz1b.js:539-541 | re-checking the same countries keeps the selection order |
| DisplayFlags.Step | viz_all.js:1614-1646 | a checkbox sets its own option and clears the other; drawing an ordinal attribute clears both |
| DisplayFlags.NeverBothOn | viz_all.js:1614-1646 | over any run of events the two options are never both on (from any start once a box is clicked) |
| LineFocus.Reconcile | viz_all.js:719-723 | a focus survives only if its country is plotted, and a plotted one always survives |
| LineFocus.AreaClick | viz_all.js:1304-1312 | a click releases a focus; otherwise it focuses the hovered line, or, with no line hovered, leaves the empty but truthy selection of hovered lines |
| LineFocus.ClickThenMove | viz_all.js:1304-1320 | once the next pointer move or redraw reconciles the focus, a click has released a set focus, focused the hovered plotted line, or left nothing focused |
| LineFocus.ClickTwiceReleases | viz_all.js:1305-1307 | the second click after focusing a line releases it |
| LineFocus.Stroke | viz_all.js:731-741 | a line keeps its colour unless another line holds the focus, and is then grey |
| LineFocus.FocusGreysOthers | viz_all.js:719-741 | after a redraw, the focused line is coloured and every other plotted line is grey |
| LineFocus.LineOf | viz_all.js:694-741 | one country's points in data order, each its row's day and its `LinePoint` value, a gap exactly at non-numbers; grey while another line is focused, else its first row's continent colour |
| LineFocus.LinesOf | viz_all.js:694-741 | one line per plotted country, each that country's `LineOf`, ordered by each country's first row |
| LineFocus.FocusedLineOnlyColored | viz_all.js:719-741 | while a focus is set, of any two lines at least one is grey |
| Tables.AttributeMap | viz_all.js:824-827 | the reduce gives an entry for exactly the countries with a row |
| Tables.AttributeMapLastWins | viz_all.js:824-827 | with several rows for a country, the last row's value wins |
| Tables.CountryWithoutRowIsEmpty | viz_all.js:830-840 | a selected country without a row shows an empty cell |
| Tables.CategoryAttributes | viz_all.js:816 | exactly the dictionary entries of the category, in dictionary order |
| Tables.CategoryAttributesAppend | viz_all.js:816 | one more dictionary entry is appended to its own category's attributes and to no other |
| Tables.BuildTable | viz_all.js:792-843 | header "Attribute" then the selection, width 200 + 125 per country; one row per category attribute, highlighted iff it is the selected attribute, one cell per country in header order |
| Tables.Rehighlight | viz_all.js:1596-1606 | re-highlighting marks exactly the rows titled with the chosen name and changes nothing else |
| Tables.RehighlightMatchesRebuild | viz_all.js:1596-1606 | when display names identify attributes, re-highlighting by name marks the rows a rebuild would mark |
| Tables.LatestDate | viz_all.js:1555 | the latest day: a day of some row, and no row is later |
| Menus.Listed | viz_all.js:1572 | exactly the entries with a non-zero sort order, none added; the first one is the first such entry of the dictionary |
| Menus.ListedInOrder | viz_all.js:1572 | the offered entries keep dictionary order |
| Menus.MenuCategories | viz_all.js:1564-1566 | each category of an offered entry once, nothing else |
| Menus.FirstListed | viz_all.js:1578-1585 | the first offered entry; none exactly when no entry is offered |
| Menus.FirstCategoryIsFirstAttributes | viz_all.js:1654-1663 | the category menu starts on the first offered attribute's category |
| Menus.OptionOrder | viz_all.js:1680-1700 | the options of a scatter menu, grouped by category: exactly the offered entries |
| Menus.FirstOptionIsFirstListed | viz_all.js:1680-1700 | the first option of the grouped menu is the first offered entry, which a menu with nothing marked selected shows |
| Menus.InitialByDisplayName | viz_all.js:1680-1709 | a scatter axis starts on an offered entry with that display name, otherwise on the first offered entry |
| Menus.InitialIsLastOption | viz_all.js:1703-1709 | of several options with that name, the axis starts on the last one in menu order |
| Menus.LastNamed | viz_all.js:1703-1709 | of several options with that name the last one is selected; with none, the fallback stays |
| Menus.LastNamedIsLast | viz_all.js:1703-1709 | no option after the one `LastNamed` picks shows the name |
| Menus.CountryOptions | viz1b.js:521-522 | every country of the data exactly once, strictly sorted |
| Playback.TickPosition | viz_all.js:255-266 | after a tick the handle sits on a whole pixel of the track |
| Playback.TickMovesTwoPixels | viz_all.js:260 | on the 400-pixel track a tick moves the handle two pixels |
| Playback.PlayFromStart | viz_all.js:255-266 | from the start, k ticks take the handle to 2k pixels |
| Playback.WrapsAfterTheEnd | viz_all.js:261-265 | the tick after the end of the track returns the handle to 0 |
| Playback.DateSlider.constructor | viz_all.js:160-166 | the handle starts at 0 with the button reading "Play" |
| Playback.DateSlider.ShowDate | viz_all.js:241-251 | showing a given day leaves the handle and the timer alone |
| Playback.DateSlider.PlayButtonClick | viz_all.js:228-237 | "Pause" stops the timer and shows "Play"; otherwise the timer starts and the button shows "Pause" |
| Playback.DateSlider.DateStep | viz_all.js:255-266 | shows the day under the clamped handle, moves the handle per `TickPosition`, and stops the timer on wrapping |
| Playback.DateSlider.DragTo | viz_all.js:188-192 | a drag shortens transitions to 100 ms and shows the day under the pointer |
| Playback.DateSlider.DragEnd | viz_all.js:193-195 | the end of a drag restores normal transitions and nothing else |
| VizAll.InitialCountriesDistinct | viz_all.js:1741 | the four starting countries are distinct |
| VizAll.MapColorMax | viz_all.js:310-319 | the colour range ends at 100 for aggregates, else at the clamped d3.max, which bounds every value and is one of them unless 0 |
| VizAll.MapColors | viz_all.js:303-322 | ordinal attributes get a strictly sorted legend, quantile colours one sample per row of the day, else a scale from 0 to `MapColorMax` |
| VizAll.MapFill | viz_all.js:418-427 | the pale fixed fill iff the colour domain is empty; otherwise the ordinal key or the clamped value |
| VizAll.OrdinalFillIsInLegend | viz_all.js:421-426 | every country's ordinal fill is one of the legend's categories |
| VizAll.Dashboard.constructor | viz_all.js:1704-1741 | page load: four starting countries, the first offered attribute and category, scatter on "New cases" against "School closing" |
| VizAll.Dashboard.MapClick | viz_all.js:379-415 | applies `Selection.MapClick` and redraws bars, lines and table |
| VizAll.Dashboard.BackgroundClick | viz_all.js:1071-1082 | clears the selection unless the click ends a drag or ctrl is held |
| VizAll.Dashboard.ScaleBoxClick | viz_all.js:1617-1628 | the options follow `DisplayFlags.Step`; map and bars are redrawn |
| VizAll.Dashboard.QuantileBoxClick | viz_all.js:1636-1646 | the options follow `DisplayFlags.Step`; the map is redrawn |
| VizAll.Dashboard.AttributeChange | viz_all.js:1590-1606 | sets the attribute, redraws map, bars and lines, re-highlights the table |
| VizAll.Dashboard.CategoryChange | viz_all.js:1666-1672 | sets the table's category and redraws the table |
| VizAll.Dashboard.ScatterAttributeChange | viz_all.js:1712-1723 | changes one scatter axis and keeps the other |
| VizAll.Dashboard.RedrawMap | viz_all.js:268-352 | ordinal attributes clear both options and hide the checkboxes; the legend shows iff the colour domain is not empty |
| VizAll.Dashboard.RedrawBars | viz_all.js:430-500 | countries in selection order, bars and axis per `BarsOf` and `BarMax`; axes shown iff the day has selected rows |
| VizAll.Dashboard.RedrawLines | viz_all.js:612-741 | lines per `LinesOf`, axis per `LineMax`, focus reconciled with the plotted countries |
| VizAll.Dashboard.LineAreaClick | viz_all.js:1304-1312 | the focus follows `LineFocus.AreaClick` |
| VizAll.Dashboard.RedrawTable | viz_all.js:783-843 | hidden and unchanged when no selected country has a row on the latest day, otherwise rebuilt as `BuildTable` states |
| VizAll.Dashboard.RedrawScatter | viz_all.js:845-988 | every country's dots of the day, axes per `ScatterAxisMax`, shown iff the day has rows |
| Viz1a.ColorMax | viz1a.js:295-301 | like the dashboard's, but a negative maximum is kept; 0 only when no value is a number |
| Viz1a.ColorMaxAgreesWithDashboard | viz1a.js:295-301 | where the maximum is not negative, the page and the dashboard agree |
| Viz1a.MapColors | viz1a.js:285-304 | every value's key (only "NA" read as "0") is in the sorted legend; quantile samples per row; else 0 to `ColorMax` |
| Viz1a.FillValue | viz1a.js:389-397 | "NA" reads "0" for ordinals; numeric fills are numbers at least 0, and a valid non-negative value stays as it is |
| Viz1a.FillAgreesWithDashboard | viz1a.js:395 | numeric fills agree with the dashboard's |
| Viz1a.TooltipValue | viz1a.js:348 | "No data" exactly for NaN and "NA" |
| Viz1a.MapPage.constructor | viz1a.js:547-583 | nothing selected; the first offered attribute |
| Viz1a.MapPage.MapClick | viz1a.js:349-386 | the same selection rule as the dashboard |
| Viz1a.MapPage.BackgroundClick | viz1a.js:493-498 | clears the selection unless ctrl is held |
| Viz1a.MapPage.ScaleBoxClick | viz1a.js:567-577 | the options follow `DisplayFlags.Step` |
| Viz1a.MapPage.QuantileBoxClick | viz1a.js:585-595 | the options follow `DisplayFlags.Step` |
| Viz1a.MapPage.AttributeChange | viz1a.js:552-558 | sets the attribute |
| Viz1a.MapPage.Redraw | viz1a.js:250-304 | ordinal attributes clear both options; colours per `Viz1a.MapColors` |
| Viz1b.BarPage.constructor | viz1b.js:568-576 | nothing selected; the first offered attribute; no scaling to date |
| Viz1b.BarPage.CountriesChange | viz1b.js:530-544 | the selection becomes `MergeChecked`: exactly the checked countries |
| Viz1b.BarPage.AttributeChange | viz1b.js:579-585 | sets the attribute |
| Viz1b.BarPage.Redraw | viz1b.js:251-428 | bars with "No data" for NaN and "NA" only, axis per `BarMax` on stored values, axes shown iff the day has selected rows |
| Viz1b.BarsAreInBands | viz1b.js:272 | every bar belongs to a selected country's band |
| Viz1c.MarkerDuration | viz1c.js:184 | the date marker moves at once exactly while dragging |
| Viz1c.LinePage.constructor | viz1c.js:462-476 | nothing selected and nothing focused; the first offered attribute (set at `viz1c.js:695`); the slider at its start, showing the data's latest day (`maxDate`) |
| Viz1c.LinePage.CountriesChange | viz1c.js:652-666 | the selection becomes `MergeChecked` |
| Viz1c.LinePage.AttributeChange | viz1c.js:699-705 | sets the attribute |
| Viz1c.LinePage.Redraw | viz1c.js:164-285 | focus reconciled; lines per `LinesOf`; axis per `LineMax`; the marker on the slider's day |
| Viz1c.LinePage.AreaClick | viz1c.js:538-547 | the focus follows `LineFocus.AreaClick` |
| Viz1c.LinePage.MouseMove | viz1c.js:548-555 | a pointer move drops a focus whose country is no longer plotted |
| Viz1c.LinePage.Drag | viz1c.js:416-420 | the day under the pointer is shown with short transitions |
| Viz1c.LinePage.Tick | viz1c.js:151-162 | a timer tick shows the handle's day and moves the handle within the track; running off the end stops the timer and shows "Play"; transitions unchanged |
| Viz1c.LinePage.DragEnd | viz1c.js:421-423 | normal transitions again |
| Viz2.LabelLevel | viz2.js:249-250 | a line's label sits at its country's last value, or at 0 unless that value is positive |
| Viz2.LabelLevels | viz2.js:236-251 | one label per line, in line order |
| Viz2.FirstOfCategory | viz2.js:478-498 | the first dictionary entry of the category: of the category, with no entry of it before; none exactly when the category has no entry |
| Viz2.TablePage.constructor | viz2.js:467-507 | nothing selected and no table; the first category and its first attribute |
| Viz2.TablePage.CountriesChange | viz2.js:444-457 | the selection becomes `MergeChecked` |
| Viz2.TablePage.CategoryChange | viz2.js:491-501 | stores the category; raises exactly when it has no attribute, then keeping the old attribute; otherwise selects the category's first attribute |
| Viz2.TablePage.AttributeChange | viz2.js:510-516 | sets the attribute |
| Viz2.TablePage.Redraw | viz2.js:133-316 | lines and end labels; when any selected country has rows, the table of the dataset's latest day per `BuildTable` |
| Viz2.NoLineIsGreyed | viz2.js:229 | every line keeps its continent colour |
| Viz3.ScatterPage.constructor | viz3.js:594-605 | both axes on the first offered attribute; the latest day shown |
| Viz3.ScatterPage.CountriesChange | viz3.js:535-548 | the selection becomes `MergeChecked` |
| Viz3.ScatterPage.AttributeChange | viz3.js:580-590 | changes one axis and keeps the other |
| Viz3.ScatterPage.Tick | viz3.js:237-248 | a timer tick shows the handle's day and moves the handle within the track; running off the end stops the timer and shows "Play"; transitions unchanged |
| Viz3.ScatterPage.Redraw | viz3.js:251-397 | the selected countries' dots of the day; axes from the same rows; shown iff there are any |
| Viz3.DotsAreSelected | viz3.js:252-253 | every dot is a selected country's row of the slider's day |
| Viz3.SliceAlreadySelected | viz3.js:311-312 | filtering the slice by the selection again changes nothing |
| DataPrep.SliceBound | data/data_downloader.py:51 | Python slice bounds: a negative bound counts from the end; past the end lands on the length, before the start on 0 |
| DataPrep.PySlice | data/data_downloader.py:51 | `s[a:b]`: never longer than `s`; Dafny's slice for in-range bounds; empty when the bounds land crossed; otherwise the characters between where the two bounds land |
| DataPrep.PySliceFrom | data/data_downloader.py:51 | `s[a:]`: a negative start keeps that many characters from the end, or all of `s` when it is shorter; a start past the end gives nothing |
| DataPrep.PySliceTo | data/data_downloader.py:51 | `s[:b]`: a negative stop drops that many characters from the end, or everything when `s` is shorter; a stop past the end gives all of `s` |
| DataPrep.ParseDate | data/data_downloader.py:49-51 | `parse_date` puts a dash after the year slice and another after the month slice, and yields at most ten characters |
| DataPrep.Undash | data/data_downloader.py:51 | taking dashes out leaves no dash |
| DataPrep.ParseDateOfCompact | data/data_downloader.py:49-51 | an 8-character date becomes "YYYY-MM-DD"; for digits, removing the dashes gives back the input |
| DataPrep.Trunc | data/data_downloader.py:263 | `int(x)` truncates toward zero |
| DataPrep.RoundHalfEven | data/data_downloader.py:292 | `round(x)` is the nearest integer, ties to even |
| DataPrep.IntToString | data/data_downloader.py:263 | `str(n)`: decimal digits that read back as the number, after a minus sign when negative |
| DataPrep.AddG | data/data_downloader.py:257-263 | raises exactly on text (`np.isnan`); NaN stays NaN, 0 becomes "0", any other number a string ending in "G" |
| DataPrep.Recode | data/data_downloader.py:287-302 | succeeds exactly on missing values, numbers, "0", "", "(missing)" and G/T-flagged text; recoded text ends "-National" or "-Local" |
| DataPrep.RecodeFlags | data/data_downloader.py:293-296 | "xG" becomes "x-National" and "xT" becomes "x-Local" |
| DataPrep.AddGThenRecode | data/data_downloader.py:257-296 | a nonzero level written by `add_g` ends up as "<level>-National" |
| DataPrep.AddGZeroThenRecode | data/data_downloader.py:260-290 | a zero level ends up as "0" |
| DataPrep.RecodeGivesLabel | data/data_downloader.py:293-296 | recoded labels are the level followed by its flag's suffix |
| DataPrep.LocalBeforeNational | data/data_downloader.py:284-285 | a local label sorts before the national label of the same level |
| DataPrep.LabelOrder | data/data_downloader.py:284-285 | for single-digit levels, string order of the labels is level order, local before national |
| DataPrep.ZeroSortsFirst | data/data_downloader.py:284-289 | "0" sorts before every label of a higher level |
| DataPrep.E1FixCodes | data/data_downloader.py:272-276 | income support "xF" becomes "xT", "xA" becomes "xG", anything else is unchanged |
| DataPrep.E1FixThenRecode | data/data_downloader.py:271-276 | "xF" ends as "x-Local", "xA" as "x-National" |
| DataPrep.H7Fix | data/data_downloader.py:269 | only "1I" is rewritten |
| DataPrep.H7FixThenRecode | data/data_downloader.py:269 | "1I" ends as "1-National" |
| DataPrep.NumericCopyNotRecoded | data/data_downloader.py:304 | a "_numeric" copy never ends in "_combined", so it is never recoded |
| DataPrep.NumericNamesAreCopies | data/data_downloader.py:251-255 | each numeric copy is named after its indicator plus "_numeric" |
| DataPrep.AddGColumn | data/data_downloader.py:265 | `applymap(add_g)` on one column: raises iff a cell is text, otherwise `add_g` cell by cell |
| DataPrep.MapColumn | data/data_downloader.py:269-276 | a cellwise rewrite of one column, cell by cell in order |
| DataPrep.AddGColumns | data/data_downloader.py:265 | raises iff a flag-free indicator holds text; otherwise only those four indicators are rewritten and the key set is kept |
| DataPrep.OxfordFixes | data/data_downloader.py:265-276 | raises iff a flag-free indicator holds text; otherwise the four indicators get `add_g`, e1 and h7 their fixes, every other column is unchanged |
| DataPrep.RecodeColumn | data/data_downloader.py:305 | a column recodes iff every cell does, cell by cell |
| DataPrep.RecodeColumns | data/data_downloader.py:304-305 | succeeds iff every "_combined" column recodes; those are recoded cellwise and the rest are unchanged |
| DataPrep.Frame.constructor | data/data_downloader.py:245 | the table holds the given columns |
| DataPrep.Frame.AddNumericCopies | data/data_downloader.py:254-255 | adds exactly the four numeric copies, each equal to its indicator, and changes nothing else |
| DataPrep.Frame.RecodeOxfordVars | data/data_downloader.py:245-278 | numeric copies of the old values always; raises iff a flag-free indicator holds text and then changes nothing else; otherwise `add_g` on the four indicators, e1/h7 fixed, other columns unchanged |
| DataPrep.Frame.RecodeGT | data/data_downloader.py:281-310 | raises iff some combined cell cannot be recoded, and then leaves the table unchanged; otherwise the table becomes `RecodeColumns` |
| DataPrep.PyMax | data/data_downloader.py:75 | builtin `max`: the larger of two days; NaT first gives NaT, NaT second gives the first |
| DataPrep.PyMin | data/data_downloader.py:76 | builtin `min`, with the same NaT behaviour |
| DataPrep.ColumnMin | data/data_downloader.py:75 | the earliest day of a column; NaT iff the column is empty |
| DataPrep.ColumnMax | data/data_downloader.py:76 | the latest day of a column; NaT iff the column is empty |
| DataPrep.Before | data/data_downloader.py:81 | subtracting days keeps NaT as NaT |
| DataPrep.IntersectDatesAlwaysCuts | data/data_downloader.py:67-104 | with both tables present the `rows_dropped > 0` guard always holds, so the three tables are always cut to the window |
| Base.FilterAll | viz3.js:311-312 | a filter every element passes changes nothing |
| DataPrep.IntersectDatesWindow | data/data_downloader.py:67-111 | with both tables present, the window runs from the later first day to 14 days before the earlier last day, and exactly the rows inside it are kept |
| DataPrep.IntersectDatesWithoutOwid | data/data_downloader.py:75-104 | with OWID empty, both window ends are NaT and nothing is dropped |
| DataPrep.OwidCountries | data/data_downloader.py:121 | `unique()`: each OWID country once |
| DataPrep.OxfordCountries | data/data_downloader.py:122 | each Oxford country once |
| DataPrep.CommonCountries | data/data_downloader.py:123 | exactly the countries of both tables, once each, in OWID's order |
| DataPrep.IntersectCountriesCommon | data/data_downloader.py:114-157 | afterwards every table holds exactly the rows of common countries, and each common country keeps rows in both |
| DataPrep.RemoveRegionalKeepsNational | data/data_downloader.py:160-192 | afterwards the Oxford tables hold exactly their national rows, and OWID is unchanged |
| DataPrep.DatasetsDict.constructor | data/data_downloader.py:70-72 | the dictionary holds the three tables |
| DataPrep.DatasetsDict.IntersectDatesStep | data/data_downloader.py:67-111 | the dictionary's tables become `IntersectDates` of the old ones |
| DataPrep.DatasetsDict.IntersectCountriesStep | data/data_downloader.py:114-157 | the tables become `IntersectCountries` of the old ones |
| DataPrep.DatasetsDict.RemoveRegionalStep | data/data_downloader.py:160-192 | the tables become `RemoveRegional` of the old ones |

## Left out

- Drawing: DOM, SVG, CSS, Leaflet map geometry and ISO-code matching of shapes, legend layout, fonts, mouse positions and tooltip placement are not modelled. The model states what each redraw decides (domains, ticks, colours, texts, visibility), not the pixels.
- Transition durations (for example `viz_all.js:417` and `viz_all.js:745`) are not modelled, except the line-chart date marker's in `Viz1c.MarkerDuration`.
- Loading: `d3.csv`, `d3.json`, the row parsers and `Promise.all` are not modelled. Rows arrive already parsed, numeric columns as numbers or NaN and ordinal columns as text.
- Dates are whole day numbers. The time scale's inverse and `d3.timeDay.floor` are the slider's `dayAt` parameter.
- Timers: `setInterval` and `clearInterval` become the `timerRunning` flag, and a tick is a call of `DateStep`.
- Number display: `Math.round(1000 * v) / 1000` and `toLocaleString` are not modelled; `Shown.Number` carries the value.
- Colour interpolation: the quantile scale's thresholds and the colour values of the schemes are not modelled, only which scale and domain are chosen.
- The line chart's nearest-line hover search is not modelled; the line under the pointer is the `hovered` parameter.
- Menus.OptionOrder: assumes each category label can be used in the `optgroup[label='...']` selector; a label containing a quote would break the selector.
- JsValues.StringToNumber: only covers the empty string and optionally signed decimal integers. Decimal points, exponents and surrounding whitespace are not modelled, because the data's text columns hold none of them.
- StrOrder.Le: compares characters as Dafny `char` values, not as UTF-16 code units. The two orders agree on the dashboard's ASCII labels and country names.
- Real numbers are exact; floating-point rounding is not modelled.
- VizAll.Dashboard.constructor, Viz1a.MapPage.constructor, Viz1b.BarPage.constructor, Viz1c.LinePage.constructor, Viz2.TablePage.constructor, Viz3.ScatterPage.constructor: require that the dictionary offers at least one attribute. With an empty menu the source either leaves the attribute `undefined` or raises a TypeError reading the value of an empty selection (`viz2.js:476`, `viz_all.js:1663`); neither outcome is modelled.
- Viz1c.LinePage.constructor, Viz3.ScatterPage.constructor: also require non-empty data, since the latest day of empty data is undefined.
- The redraw methods require the selected attribute to be in the data dictionary. The source reads `undefined` otherwise and fails.
- Python: reading and writing CSV/XLSX files, the download, `lowercase_column_names`, `convert_dates`, `rename_columns`, `merge_datasets`, `update_filler_rows`, `add_iso_codes`, `drop_unnecessary_columns`, `summarize_dataset` and every `print` are not modelled.
- The Python model's rows carry only the fields the filters read: country, day and region name.
- DataPrep.Frame: holds columns in a map, so the DataFrame's column order is not modelled.
- DataPrep.OxfordFixes, DataPrep.Frame.RecodeOxfordVars: require the four flag-free indicators and the "e1_combined" and "h7_combined" columns, as in the OxCGRT schema. Without one of them the source raises a KeyError, which the model leaves out.
- After `to_datetime` every row has a date, so NaT arises in the model only as the minimum or maximum of an empty column.
- DataPrep.ParseDate: models the slicing of `str(r['date'])` on any text. It does not model `str` of a non-string date.
- DataPrep.Recode: models the value kinds the table holds (missing, number, string). Other Python types are not modelled.

