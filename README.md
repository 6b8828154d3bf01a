# ADGPRS summary converter, modelled in Dafny

An ADGPRS reservoir simulation leaves a summary container behind. It
holds a time axis (`TIMES`) and, for each well, a record of row-major
tables (`WELL_STATES`):
- per-perforation phase rates (`vPhaseRates`, three columns per perforation: gas, oil, water);
- well surface-condition rates (`vPhaseRatesAtSC`);
- pressures (`vPressures`, column 0 the bottom-hole pressure, column `p+1` perforation `p`);
- temperatures (`vTemperatures`);
- average densities (`vAverageDensity`).

The converter reshapes this in three steps:
1. It builds perforations from column slices of those tables. It integrates rates into cumulatives with the left-rectangle rule (`accumulate`).
2. It sums the perforations into well rates and cumulatives. It classifies a well as an injector when its last water or gas cumulative is below -1.
3. It sums the wells into fifteen field series. Production series sum the non-injector wells; injection series sum the injector wells.

Two writers flatten the result:
- a CSV table with 13 field columns and 7 columns per well;
- a JSON record tree.

The model follows that structure, one module per concern:

| file | module | what it holds |
|---|---|---|
| `wrappers.dfy` | `Wrappers` | `Option` |
| `series.dfy` | `Series` | series helpers: `Zeros`, elementwise `Add`, table `Column`, `Last` |
| `accumulate.dfy` | `Accumulation` | `Accumulate` and its recurrence, uniqueness, linearity and monotonicity |
| `perforation.dfy` | `Perforations` | the `Perforation` record and its constructor |
| `well.dfy` | `Wells` | the raw `WellStates` record; `NewWell`, the well totals (`Aggregate`), `IsInjector` |
| `summary.dfy` | `Summaries` | the container; `NewSummary`; the field aggregates (`FieldAggregate`) and their partition into production and injection |
| `csv_writer.dfy` | `CsvWriter` | the `FieldData` and `WellData` matrices (`array2<real>` filled column by column) and the header and row assembly |
| `json_writer.dfy` | `JsonWriter` | the `Field` and `Wells` records, with ordered JSON objects |

Entities are handled as follows:
- Perforations, wells and the summary are never changed after construction, so they are datatypes.
- The loops of the source are methods whose loop invariants tie them to specification functions:
  - the perforation loop of `Well.__init__`;
  - the `+=` loops of the well and field properties;
  - the well loop of `AdgprsSummary.__init__`;
  - the `windex` loop of the CSV `WellData`;
  - the row loop of the CSV writer;
  - the well loop of the JSON `WellData`.
- The CSV matrices are preallocated and overwritten one column at a time, so they are arrays inside classes.

Both writers put the gas production rate under the label `FOPR` and the oil production rate under `FGPR`:
- CSV: `CsvSummaryWriter.py:12` with `:20-21`;
- JSON: `JsonSummaryWriter.py:17-18`.

The letters of `FOPR` and `FGPR` name the opposite series to the ones these columns hold (`CsvSummaryWriter.py:12`, `:20-21`; `JsonSummaryWriter.py:17-18`). The model follows the code. `CsvWriter.FieldLabelsAgainstMnemonics` proves that these two labels, and no others, disagree with the series their letters name. `JsonWriter.FieldPropertiesMatchCsv` proves that the two writers agree label by label.

## Model

| member | source | states |
|---|---|---|
| Accumulation.Accumulate | AdgprsSummary.py:5-8 | The cumulative series has one entry per time step (a single 0.0 for an empty axis, as `np.insert` on an empty `cumsum` gives) and starts at 0.0. |
| Accumulation.AccumulateCharacterised | AdgprsSummary.py:5-8 | A series is `accumulate(t, r)` if and only if it has the right length, starts at 0.0 and satisfies `c[i] = c[i-1] + (t[i]-t[i-1]) * r[i-1]` for every later step. |
| Accumulation.AccumulateIsCumulative | AdgprsSummary.py:6-7 | `accumulate` satisfies the left-rectangle recurrence at every step `1 <= i < N`. |
| Accumulation.CumulativeUnique | AdgprsSummary.py:5-8 | Any series satisfying the recurrence is the one `accumulate` returns. |
| Accumulation.LastRateUnused | AdgprsSummary.py:7 | Two rate series differing only in their last element accumulate to the same series (`vec_prop[:-1]`). |
| Accumulation.AccumulateAdd | AdgprsSummary.py:5-8 | Accumulating a sum of rates equals the sum of the accumulations. This is what lets cumulatives be summed over perforations and wells. |
| Accumulation.AccumulateZeros | AdgprsSummary.py:5-8 | Zero rates accumulate to zeros on a non-empty axis. |
| Accumulation.AccumulateMonotone | AdgprsSummary.py:5-8 | On a non-decreasing time axis, non-negative rates give a non-negative, non-decreasing cumulative. |
| Accumulation.AccumulateExample | TestAdgprsSummary.py:29 | `accumulate([0,1,3,6], [1000,100,10,1])` is exactly `[0,1000,1200,1230]`. |
| Perforations.NewPerforation | AdgprsSummary.py:13-23 | The perforation keeps its six raw series. Each of its gas, oil and water cumulatives satisfies the accumulation recurrence with its own rate on the shared time axis. |
| Perforations.PerforationCumulative | AdgprsSummary.py:17-21 | Each phase cumulative of a perforation equals `accumulate` of the time axis with that perforation's rate of the same phase. |
| Wells.NewWell | AdgprsSummary.py:28-49 | The well is built from the raw record. It has as many perforations as temperature row 0 has columns, appended in index order. BHP is pressure column 0. Surface rates are columns 0/1/2 of the surface table, with their accumulated cumulatives. Perforation `p` is built from phase-rate columns `3p`/`3p+1`/`3p+2`, pressure column `p+1` and temperature and density column `p`. |
| Wells.SlicePerforations | AdgprsSummary.py:41-49 | The perforation loop yields one perforation per temperature column, and perforation `p` is built from exactly the slices of index `p`. |
| Wells.NewPerforationSliced | AdgprsSummary.py:43-49 | The perforation built from the slices of index `p` has exactly those columns as its series. |
| Wells.BuiltFromUnique | AdgprsSummary.py:28-49 | A raw record and a time axis determine the well completely. |
| Wells.SlicedUnique | AdgprsSummary.py:43-49 | The slices of index `p` determine perforation `p` completely. |
| Wells.Aggregate | AdgprsSummary.py:51-91 | The zero-initialised `+=` loop over perforations returns the well total of the requested rate or cumulative. |
| Wells.TotalAt | AdgprsSummary.py:51-91 | At every time index the well total is the sum over its perforations of the same series at that index. |
| Wells.SumPerforationsAt | AdgprsSummary.py:51-91 | The running sum over any list of perforations is, at every index, the sum of their values at that index. |
| Wells.WellCumulativeIsAccumulated | AdgprsSummary.py:72-91 | A well's cumulative of a phase equals `accumulate` of the well's rate of that phase. |
| Wells.SumCumulativeIsAccumulated | AdgprsSummary.py:72-91 | Summing perforation cumulatives gives the accumulation of the summed perforation rates. |
| Wells.IsInjector | AdgprsSummary.py:93-95 | A well is an injector if and only if the sum over its perforations of the last water cumulative, or of the last gas cumulative, is below -1; oil is not tested. |
| Wells.InjectorByWellRates | AdgprsSummary.py:93-95 | A well is an injector if and only if the integral of its water rate or of its gas rate over the whole time axis ends below -1. |
| Wells.InjectorIgnoresOil | AdgprsSummary.py:93-95 | Wells that agree on their gas and water cumulatives are classified alike, whatever their oil series. |
| Wells.ProducerWhenRatesNonNegative | AdgprsSummary.py:93-95 | On a non-decreasing time axis, a well whose gas and water perforation rates are all non-negative is not an injector. |
| Summaries.NewSummary | AdgprsSummary.py:100-110 | The summary keeps the time axis and has one well per well-state record, in record order, each built from its record on that time axis. With at least one well, each having a perforation, the summary is fit for the field aggregates. |
| Summaries.WellMeasure | AdgprsSummary.py:35-91 | A reservoir-condition series of a well is, at every time index, the sum over its perforations of that series at that index. A surface-condition rate is the well's surface rate of that phase, and the surface cumulative is `accumulate` of that rate on the well's time axis. |
| Summaries.FieldAggregate | AdgprsSummary.py:112-231 | Each of the fifteen field properties equals the sum of the chosen well series over exactly the wells whose injector classification is the one requested (production: non-injectors; injection: injectors). |
| Summaries.ProductionPlusInjection | AdgprsSummary.py:112-231 | For every measure, the production total plus the injection total equals the total over all wells. |
| Summaries.SelectedWells | AdgprsSummary.py:112-231 | The wells picked for one class all have that class, so each can be summed. |
| Summaries.FieldSumIsSumOverSelected | AdgprsSummary.py:112-231 | A field total is the plain sum over the sub-list of wells of its class. |
| Summaries.SelectedPartition | AdgprsSummary.py:112-231 | The producers and the injectors together are the wells of the summary, each counted once (as multisets). |
| Summaries.SelectedStep | AdgprsSummary.py:115-117 | The last well joins the list of its own class and leaves the other list unchanged. |
| Summaries.WellSeriesAccumulated | AdgprsSummary.py:35-40 | For reservoir and surface conditions alike, a well's cumulative is `accumulate` of its rate. |
| Summaries.FieldCumulativeIsAccumulated | AdgprsSummary.py:160-231 | A field cumulative (reservoir or surface, production or injection) is `accumulate` of the field rate of the same phase, condition and class. |
| CsvWriter.FieldHeadersShape | CsvSummaryWriter.py:10-14 | The 13 field labels are pairwise distinct four-letter names. |
| CsvWriter.FieldLabelsAgainstMnemonics | CsvSummaryWriter.py:10-28 | Column 0 is TIME. Every other field column holds the series its label names, except FOPR (column 4, holding the gas rate) and FGPR (column 5, holding the oil rate). |
| CsvWriter.WellHeaderBaseShape | CsvSummaryWriter.py:41 | The seven well labels are distinct and contain no digits. |
| CsvWriter.WellLabelsFollowMnemonics | CsvSummaryWriter.py:41-52 | Well column `k` holds the series its label names: BHP, then gas/oil/water rate, then gas/oil/water cumulative. |
| CsvWriter.DecimalRoundTrip | CsvSummaryWriter.py:45 | `str(windex)` is a non-empty digit string that reads back as `windex`. |
| CsvWriter.WellHeaders | CsvSummaryWriter.py:40-45 | The well headers of `W` wells are `7*W` labels. |
| CsvWriter.WellHeadersAt | CsvSummaryWriter.py:45 | Header `7w+k` is base label `k` followed by the decimal index `w`. |
| CsvWriter.WellHeaderInjective | CsvSummaryWriter.py:45 | Two well labels are equal only for the same base label and the same well index. |
| CsvWriter.WellHeaderEndsInDigit | CsvSummaryWriter.py:45 | Every well label ends in a digit, so no well label equals a field label. |
| CsvWriter.WellHeadersDistinct | CsvSummaryWriter.py:40-45 | The `7W` well labels are pairwise distinct. |
| CsvWriter.CsvHeadersDistinct | CsvSummaryWriter.py:68 | The full CSV header (field labels then well labels) has no repeated name, whatever the number of wells. |
| CsvWriter.FillColumn | CsvSummaryWriter.py:16-28 | `data[:, k] = col` overwrites column `k` with `col` and leaves every other cell as it was. |
| CsvWriter.FillFieldColumn | CsvSummaryWriter.py:17-28 | Fills field column `k` with its field aggregate, keeps the columns filled before it, and leaves every column other than `k` as it was. |
| CsvWriter.FieldData.constructor | CsvSummaryWriter.py:9-28 | The headers are the 13 field labels. The matrix is `N x 13`, and each cell `[i, k]` holds step `i` of the series of column `k`: the time axis, then the twelve field aggregates in source order. |
| CsvWriter.FillWellColumn | CsvSummaryWriter.py:46-52 | Fills column `7*windex+k` with well column `k`, keeping the wells and columns filled before it, and leaves every other column as it was. |
| CsvWriter.FillWellTotal | CsvSummaryWriter.py:47-52 | Recomputes a well total from the perforations and stores it in its column; every other column is left as it was. |
| CsvWriter.FillWell | CsvSummaryWriter.py:46-52 | One pass of the well loop fills the seven columns of that well, keeps the wells before it, and leaves the columns of every other well untouched. |
| CsvWriter.WellData.constructor | CsvSummaryWriter.py:39-53 | The headers are the seven labels of each well in ascending well order. The matrix is `N x 7W`, and cell `[i, 7w+k]` holds step `i` of column `k` of well `w`. |
| CsvWriter.RowOf | CsvSummaryWriter.py:70 | Row `r` of a matrix as a list, cell by cell. |
| CsvWriter.AssembleCsv | CsvSummaryWriter.py:68-70 | The header is the field headers followed by the well headers. There is one row per time step, each the field row followed by the well row and as long as the header. |
| CsvWriter.CsvOutput | CsvSummaryWriter.py:61-70 | The written header is the 13 field labels followed by the `7W` well labels. There are `N` rows of length `13 + 7W`; cell `k < 13` is field column `k`, and cell `13 + 7w + k` is column `k` of well `w`. |
| JsonWriter.FindEach | JsonSummaryWriter.py:10-27 | In an object whose keys are distinct, looking up each key returns the value stored with it. |
| JsonWriter.FieldObjectFields | JsonSummaryWriter.py:10-12 | `NumWells` is the number of wells, and `Properties` is the field property object. |
| JsonWriter.FieldPropertyAt | JsonSummaryWriter.py:13-25 | Member `k` of the field properties is CSV field label `k` paired with CSV field column `k`. |
| JsonWriter.FieldPropertiesMatchCsv | JsonSummaryWriter.py:12-26 | The field properties carry the 13 CSV field labels in the same order. Each label holds the series of the CSV column of that name: FOPR the gas rate, FGPR the oil rate, injection labels their own phase. |
| JsonWriter.WellObjectFields | JsonSummaryWriter.py:46-49 | A well entry holds its perforation count under `NumPerforations`, the flag under `IsInjector`, and its properties. |
| JsonWriter.WellPropertyLabelsDistinct | JsonSummaryWriter.py:50-57 | TIME and the seven well labels are pairwise distinct. |
| JsonWriter.WellPropertiesMatchCsv | JsonSummaryWriter.py:49-58 | The well properties are TIME (the well's time axis) followed by the seven CSV well labels in order. Each label holds the CSV column of that name: BHP, aggregated rates, aggregated cumulatives. |
| JsonWriter.WellObjects | JsonSummaryWriter.py:39-62 | One entry per well, in the summary's well order. `IsInjector` is 1 exactly when the well is an injector and 0 otherwise. `NumPerforations` is the well's perforation count. |
| JsonWriter.WellEntriesFields | JsonSummaryWriter.py:42-48 | In the list of well entries, each entry's `IsInjector` is 1 exactly for an injector and 0 otherwise, and its `NumPerforations` is the perforation count of that well. |
| JsonWriter.JsonDocument | JsonSummaryWriter.py:64-71 | The document is an object with exactly two members, `Field` then `Wells`, in that order. `Field` is the field record and `Wells` is a list with one well record per well, in well order. |

## Left out

- Opening the HDF5 container and reading its groups and datasets (`AdgprsSummary.py:1`, `:100-107`). The container is an input datatype: the time axis plus one record of row-major tables per well.
- Summaries.NewSummary: requires every table of a well to have one row per time step. The source needs this of the phase-rate and surface-rate tables, whose series feed `accumulate`. On the CSV path it also needs it of the pressure table, because the BHP series fills a column with one row per time step (`CsvSummaryWriter.py:42`, `:46`). Only for the temperature and density tables is it a convenience of the model.
- Wells.NewWell: requires at least one time step, since the perforation count is read from temperature row 0. The aggregates require a well to have a perforation, and the field properties a first well. Both are indexed for their shape (`perforations[0]`, `wells[0]`).
- Wells.NewWell: requires each table to be wide enough for its slices: at least `3P` phase-rate columns, 3 surface-rate columns, `P+1` pressure columns, and `P` temperature and density columns, where `P` is the width of temperature row 0. A narrower table makes the source fail with an index error while slicing; that failure path is not modelled.
- Writing the files: `open` and `csv.writer` (`CsvSummaryWriter.py:66-70`), and `json.dump` (`JsonSummaryWriter.py:72-73`). The model stops at the header and rows, and at the JSON value, that would be written. The number formatting of the two libraries is not modelled.
- The command-line script `AdgprsSummaryConverter.py`: argument parsing, choice of format and closing the container. AdgprsSummaryConverter.py is not part of this model.
- Floating point: series are `real`, so sums are exact. NaN propagation, rounding that depends on summation order, and the `np.allclose` tolerance of the tests are not modelled.
- The commented-out driver at the end of `AdgprsSummary.py`, and the reference vectors of the test fixture, which depend on a binary file.
- The `object()` accessors of the JSON `FieldData` and `WellData` return the built value unchanged, so the model uses that value directly.
- The `Json` type has no strings, booleans or null, since the writer emits none. A series after `.tolist()` is one `JNumbers` value rather than a list of separate numbers.
- JsonWriter.FieldObject, JsonWriter.WellObject, JsonWriter.FieldEntry, JsonWriter.WellEntry: these functions carry no contract of their own. What they hold is stated by `FieldObjectFields`, `FieldPropertiesMatchCsv`, `WellObjectFields` and `WellPropertiesMatchCsv`.
