# Bird migration dashboard: data pipeline and prediction request

A Dafny model of the data-transformation core of the Streamlit dashboard `app.py`. The dashboard
draws bird migration routes from an uploaded CSV file and asks a pre-trained classifier whether
a migration will succeed. The model covers the parts of the script that compute, not the ones
that draw:

- **`process_data`** (module `Normalizer`, with `Frames` and `Labels`). It does these steps:
  - checks that the five coordinate and distance columns are present;
  - coerces those five columns cell by cell with `pd.to_numeric(errors='coerce')`;
  - drops the rows whose four coordinates are not all numbers;
  - derives the Turkish month, species, region and reason labels.

  The month label goes through `split(',')[0].strip()`, a 12-entry dictionary and an ordered
  categorical. The other three labels go through exact dictionary lookups with a per-category
  sentinel. The upload handler around `process_data` turns each outcome into its message: a
  parse error, the missing-columns error, "no usable data", an unexpected exception, or loaded
  rows.
- **The map filters** (module `MapFilter`). Three filters run one after another: species (when
  any are selected), region (when any are selected), and the selected month. The month selector
  starts on the most frequent month of the data.
- **The selection state** (module `Selection`). The "select all" / "clear" buttons and the
  multiselects update the session's stored species and region selections. The options are the
  sorted distinct labels of the processed rows, ordered the way Python's `<` orders strings.
- **The prediction panel** (module `Prediction`). It covers:
  - the Turkish options and the dictionaries that translate them into the classifier's English
    vocabulary (`dict.get(x, x)`);
  - the one-row request with its nine columns in the classifier's positional order;
  - the verdict read from `predict` / `predict_proba`;
  - the panel's behaviour when the button is pressed.

Each operation is paired with what it promises:
- `ProcessData` (with its `dropna` and coercion loop) is proved equal to the specification
  function `Normalize`. Its rows are characterised by `NormalizedRows`.
- The filter block `FilterMapData` is proved equal to one conjunctive filter. `FilteredView`
  shows that result is an order-preserving subsequence.
- The session's button handlers are stated against `AfterButtons`. `SelectAllSpeciesShowsAll`
  shows that "select all" shows the same rows as an empty selection.
- The request builder is paired with round trips. These prove that the panel's species, region
  and month options survive translation and relabelling. Two explicit counterexamples show that
  the full region dictionaries are not inverse to each other.

## Model

| member | source | states |
|---|---|---|
| Frames.Coerce | app.py:115 | a number stays, NaN stays missing, text becomes the parser's number or missing; the result is never text |
| Frames.CoerceColumn | app.py:115 | the coerced column has the same length and is the cell-wise coercion of the column |
| Labels.IsSpace | app.py:121 | the whitespace `strip()` removes (CPython's `str.isspace`): space, tab, newline and carriage return are in it, and no printable ASCII character other than space is |
| Labels.FirstToken | app.py:121 | the result is the prefix of the text up to the first comma, has no comma, and stops at a comma or the end |
| Labels.TrimStart | app.py:121 | `lstrip` drops a leading run of whitespace only, and the result does not start with whitespace |
| Labels.TrimEnd | app.py:121 | `rstrip` drops a trailing run of whitespace only, and the result does not end with whitespace |
| Labels.StripSpec | app.py:121 | `strip` keeps one contiguous stretch of the text that neither starts nor ends with whitespace, and everything dropped on either side is whitespace |
| Labels.Strip | app.py:121 | `strip` shortens the text and leaves it empty or neither starting nor ending with whitespace |
| Labels.StripAddsNothing | app.py:121 | `strip` never introduces a character the text did not hold, so a comma-free token stays comma-free |
| Labels.MonthToken | app.py:121 | a cell has a token iff it is text; the token has no comma and no surrounding whitespace. A number or NaN cell has none, since `str()` of a number or of NaN is never a key of the month dictionary and the label is missing either way |
| Labels.MonthTokenOfText | app.py:121 | a text cell's token is exactly `strip()` of `split(',')[0]`, each pinned down by the contracts of `FirstToken` and `StripSpec` |
| Labels.FirstTokenWithoutComma | app.py:121 | a text without commas is its own first comma-separated part |
| Labels.CleanToken | app.py:121 | a text without commas and without surrounding whitespace is its own month token |
| Labels.MonthCode | app.py:125-127 | a name has a categorical code iff it is one of the twelve categories, and the code's category is that name |
| Labels.MonthLabel | app.py:121-127 | a cell gets a month iff its trimmed first token is a key of the month dictionary, and the month's category is that key's Turkish name; everything else (numbers, NaN, "Bilinmeyen Ay") is missing |
| Labels.MonthTableValues | app.py:122-127 | every value of the month dictionary is a category, and the fallback "Bilinmeyen Ay" is not one |
| Labels.MonthOrderDistinct | app.py:125-126 | the twelve categories are distinct |
| Labels.CategoryLabel | app.py:129-166 | `map(table).fillna(sentinel)` on a cell: a text key gets its entry, anything else the sentinel |
| Labels.SpeciesLabel | app.py:129-144 | a species token gets its Turkish entry; any other cell (another text, a number, NaN) gets "Bilinmeyen Tür" |
| Labels.RegionLabel | app.py:146-156 | a region token gets its Turkish entry; any other cell gets "Bilinmeyen Bölge" |
| Labels.ReasonLabel | app.py:158-166 | a reason token gets its Turkish entry; any other cell gets "Bilinmeyen Neden" |
| Labels.SpeciesSentinelIffUnmatched | app.py:129-144 | the species label is "Bilinmeyen Tür" exactly when the cell is not a species token |
| Labels.RegionSentinelIffUnmatched | app.py:146-156 | the region label is "Bilinmeyen Bölge" exactly when the cell is not a region token |
| Labels.ReasonSentinelIffUnmatched | app.py:158-166 | the reason label is "Bilinmeyen Neden" exactly when the cell is not a reason token |
| Labels.UnknownSpeciesToken | app.py:143-144 | the literal species "Unknown" is labelled "Bilinmeyen", unlike the unmatched species sentinel |
| Labels.UnknownRegionToken | app.py:155-156 | the same for regions |
| Labels.UnknownReasonToken | app.py:165-166 | the same for migration reasons |
| Labels.AprilLabel | app.py:121-127 | the cell "Apr" gets month code 3, whose category is "Nisan" |
| Labels.StorkLabel | app.py:130 | "Stork" is labelled "Leylek" |
| Labels.EuropeLabel | app.py:147 | "Europe" is labelled "Avrupa" |
| Labels.BreedingLabel | app.py:159 | "Breeding" is labelled "Üreme" |
| Normalizer.HasColumns | app.py:110 | `all(col in df.columns for col in …)`: the listed names are a subset of the table's columns |
| Normalizer.FirstAbsent | app.py:121-166 | the label column whose derivation raises: none iff all four label columns are present, otherwise the first absent one in the order they are derived |
| Normalizer.Coerced | app.py:114-115 | the table after the coercion loop: same height and columns, the five required columns coerced cell by cell, every other column unchanged |
| Normalizer.KeepRow | app.py:117 | `dropna` over the four coordinate columns keeps a row iff each of those four cells is a number |
| Normalizer.KeptIndices | app.py:117 | every index `dropna` keeps is a row whose four coordinates are numbers |
| Normalizer.KeptIndicesExact | app.py:117 | the kept indices increase, and every row with four numeric coordinates is kept |
| Normalizer.KeptIndicesIncrease | app.py:117 | the indices `dropna` keeps are in table order |
| Normalizer.KeptIndicesComplete | app.py:117 | every row with four numeric coordinates is kept |
| Normalizer.MakeRecord | app.py:117-166 | the record of a surviving row carries its own index label, its four coerced coordinates, its coerced distance (present exactly when a number), and the month, species, region and reason labels of its own cells |
| Normalizer.DeriveOne | app.py:119-166 | deriving the labels of a table that keeps one row yields exactly that row's record |
| Normalizer.DeriveRecords | app.py:119-166 | one record per kept row, in order, each the labelled record of its own row and carrying its index label |
| Normalizer.Normalize | app.py:104-171 | empty table iff a required column is missing; an exception iff those are present but a label column is absent, the status recording an absent label column; otherwise the processed rows |
| Normalizer.CoerceRequired | app.py:114-115 | the loop over the five required columns produces exactly the coerced table |
| Normalizer.ProcessData | app.py:104-171 | the check, the coercion loop, `dropna` and the label assignments compute `Normalize` |
| Normalizer.CoercedRow | app.py:114-117 | a row survives iff each of its four coordinates is a number as read or text the parser accepts; a coerced cell is the coercion of the cell as read |
| Normalizer.NormalizedRows | app.py:104-171 | the processed rows have increasing index labels; each is the record of a surviving row, and every surviving row has its record |
| Normalizer.MissingDistanceKept | app.py:114-117 | a row with numeric coordinates and a non-numeric distance is kept, with its distance missing |
| Normalizer.CoercionKeepsNumbers | app.py:114-115 | coercion leaves a table alone when its required columns hold no text |
| Normalizer.LoadUpload | app.py:219-233 | the map gets rows iff the file parses and `process_data` returns a non-empty table, and then exactly those rows; an empty file and a parse error get their own messages; a missing required column gets `process_data`'s error (and "no usable data") iff the table lacks one; a table without rows gets "no usable data" alone; the generic message comes iff `read_csv` raised something else or a label column is absent; the status records which label column raised (or none), though the message itself shows only the exception's text |
| Normalizer.StorkFrame | app.py:199-203 | a one-row upload with all nine expected columns, numbers stored as numbers |
| Normalizer.StorkRecord | app.py:104-166 | the stork row's record: its coordinates and distance, month code 3, "Leylek", "Avrupa", "Üreme" |
| Normalizer.StorkExample | app.py:104-171 | processing the one-row stork upload yields exactly that one record |
| Normalizer.RaisesAtFirstAbsent | app.py:121-166 | with the required columns present, processing raises at the first absent label column in the order month, species, region, reason, whatever the rows hold |
| Normalizer.StorkWithoutReason | app.py:199-203 | the same stork upload with eight columns, without `Migration_Reason` |
| Normalizer.StorkWithoutReasonRaises | app.py:158 | on that eight-column upload, processing raises at the reason column instead of returning the stork's row |
| Normalizer.StorkWithoutReasonRejected | app.py:219-233 | that upload ends in the generic error message, raised by the reason column's derivation (the message shows only the AttributeError's text), and the map gets no rows |
| MapFilter.Filter | app.py:312 | boolean-mask indexing keeps exactly the elements that pass, and no more than there were |
| MapFilter.FilterIsSubsequence | app.py:310-316 | a filter keeps an order-preserving subsequence of its input |
| MapFilter.FilterKeepsAll | app.py:310 | a filter that every row passes changes nothing (the copy the block starts from) |
| MapFilter.FilterThenFilter | app.py:311-316 | two filters in a row keep what their conjunction keeps |
| MapFilter.Shown | app.py:311-316 | a shown row carries the selected month, a selected species when any is selected and a selected region when any is selected; with no species and no region selected, exactly the rows of the month are shown |
| MapFilter.InMonth | app.py:316 | the month mask: a row passes iff its categorical month is present and is the selected one; a missing month never passes |
| MapFilter.FilterMapData | app.py:310-316 | the species, region and month steps, with empty selections skipped, keep exactly the rows that pass all three tests, in order |
| MapFilter.FilteredView | app.py:310-316 | the rows shown are an order-preserving subsequence of the processed rows, holding exactly the rows of a selected species (or any, when none is selected), of a selected region (likewise) and of the selected month |
| MapFilter.EmptySelectionsKeepMonth | app.py:311-316 | with no species and no region selected, exactly the rows of the selected month are shown |
| MapFilter.MonthCount | app.py:301 | a month's count is positive iff some row carries it |
| MapFilter.MonthFilterSize | app.py:315-318 | the month filter keeps as many rows as carry that month |
| MapFilter.ModeFrom | app.py:301 | the month found is at least as frequent as every month, and strictly more frequent than every earlier month |
| MapFilter.DefaultMonth | app.py:300-301 | the starting month exists iff some row has a month; it is then a most frequent month, the earliest of the equally frequent ones |
| MapFilter.NoMonthWithoutMode | app.py:301 | when even the most frequent month has no row, no row has a month |
| MapFilter.DefaultViewNonEmpty | app.py:300-318 | with nothing selected for species or region, the starting month shows a non-empty map, as many rows as carry it |
| Selection.BelowIrreflexive | app.py:250 | no string sorts before itself |
| Selection.BelowTransitive | app.py:250 | the string order is transitive |
| Selection.BelowTotal | app.py:250 | of two different strings, one sorts before the other |
| Selection.Below | app.py:250 | Python's `<` on strings: a proper prefix sorts before the longer string, and no string sorts before one of its prefixes |
| Selection.BelowAtFirstDifference | app.py:250 | where two strings first differ, the smaller code point decides which sorts first |
| Selection.SortedDistinct | app.py:250 | a strictly sorted list holds no label twice |
| Selection.Insert | app.py:250 | inserting into a strictly sorted list keeps it strictly sorted and adds exactly that label |
| Selection.SortedUnique | app.py:250 | `sorted(unique())` is strictly sorted and holds exactly the labels of the column |
| Selection.SortedListingUnique | app.py:250 | two strictly sorted lists of the same labels are equal, so the options do not depend on row order |
| Selection.SpeciesOf | app.py:250 | the species label column of the processed rows, row by row |
| Selection.RegionsOf | app.py:278 | the region label column of the processed rows, row by row |
| Selection.SpeciesOptions | app.py:250 | the species options are sorted, hold no label twice, and hold exactly the species labels of the rows |
| Selection.SelectAllSpeciesShowsAll | app.py:250-255 | selecting all species shows the same rows as selecting none |
| Selection.SelectAllRegionsShowsAll | app.py:278-283 | selecting all regions shows the same rows as selecting none |
| Selection.AfterButtons | app.py:254-257 | "select all" sets the selection to all options and wins over "clear"; "clear" empties it; with neither pressed it is unchanged |
| Selection.SessionSelection.constructor | app.py:251-252 | a new session starts with both selections empty |
| Selection.SessionSelection.SpeciesButtons | app.py:250-257 | the species selection becomes `AfterButtons` over the sorted species options; the region selection is unchanged |
| Selection.SessionSelection.RegionButtons | app.py:278-285 | the region selection becomes `AfterButtons` over the sorted region options; the species selection is unchanged |
| Selection.SessionSelection.PickSpecies | app.py:259-266 | the stored species selection becomes the multiselect's value; the region selection is unchanged |
| Selection.SessionSelection.PickRegions | app.py:287-294 | the stored region selection becomes the multiselect's value; the species selection is unchanged |
| Prediction.Translate | app.py:434-439 | `m.get(x, x)`: a key gets its entry, anything else passes through unchanged |
| Prediction.Column.Name | app.py:402-406 | each request column's name is one of `input_data_columns` |
| Prediction.ColumnNamesInOrder | app.py:402-406 | the request's nine columns, named, are `input_data_columns` position by position |
| Prediction.InputColumnsExact | app.py:402-406 | the request's column list holds every column, none twice, and no two columns share a name |
| Prediction.HoldsOne | app.py:433-443 | a request over the classifier's columns holds one value per column |
| Prediction.RequestRow | app.py:433-443 | the nine values sit under their own columns, in the classifier's order |
| Prediction.BuildRequest | app.py:433-443 | each categorical choice is sent as its dictionary's translation (or itself) under its column, each number unchanged under its column |
| Prediction.OptionsTranslated | app.py:379-430 | every option of the weather, species, month and flock selectboxes has an entry in its dictionary, so none passes through untranslated |
| Prediction.RegionOptionsTranslated | app.py:381-425 | the same for every option of the region selectbox |
| Prediction.SpeciesMapInvertsFirstHalf | app.py:410-414 | each species option translates to a species token whose upload label is that option |
| Prediction.SpeciesOptionRoundTrip | app.py:410-414 | a species option, translated and labelled the way uploaded rows are, comes back as itself |
| Prediction.RegionOptionsInvertedHead | app.py:415-425 | the first three region options translate to region tokens whose upload labels are those options |
| Prediction.RegionOptionsInvertedTail | app.py:415-425 | the same for the last three region options |
| Prediction.RegionOptionRoundTrip | app.py:415-425 | a region option, translated and labelled again, comes back as itself |
| Prediction.MonthOptionsRoundTrip | app.py:426-429 | each month option translates to a month token whose Turkish name is that option |
| Prediction.TropikalSent | app.py:420 | "Tropikal" is sent to the classifier as "Tropical" |
| Prediction.TropicalNotLabelled | app.py:420 | "Tropical" is not a region token of the upload labels, so it comes back as "Bilinmeyen Bölge": the full region dictionaries are not inverse |
| Prediction.SteppeLabelled | app.py:153 | an uploaded "Steppe" is labelled "Step" |
| Prediction.StepNotTranslated | app.py:415-425 | "Step" is not a key of the region dictionary, so it is sent unchanged |
| Prediction.SteppeNotRoundTrip | app.py:422 | an uploaded "Steppe" relabelled and translated is sent as "Step", not "Steppe" |
| Prediction.DefaultTokens | app.py:409-430 | the first weather, month, species and flock options, which the selectboxes start on, translate to "Sunny", "Jan", "Stork" and "Yes" |
| Prediction.DefaultRegionToken | app.py:416 | the default region "Avrupa" translates to "Europe" |
| Prediction.DefaultRequest | app.py:379-443 | the widgets' defaults (each selectbox's first option, the sliders' and the distance input's `value`) are sent as ["Sunny", 1010.0, "Jan", "Stork", "Europe", "Yes", 2500, 15.0, 20.0] in the classifier's order |
| Prediction.ShowVerdict | app.py:453-456 | success iff the predicted class is 1; the probability shown is column 1 on success and column 0 otherwise |
| Prediction.VerdictIndexable | app.py:453-456 | the message can read its probability iff the row has column 0 and, on success, column 1; two columns are always enough, an empty row never is |
| Prediction.PredictionPanel | app.py:446-467 | idle iff the button was not pressed; a warning iff there is no pipeline; a verdict iff the classifier answered with the probability column it needs; otherwise the error together with the request that was sent |

## Left out

- Page layout, CSS, the pydeck arc layer, the view state's mean-of-coordinates centre, the map
  tooltip and the 100-row table preview are presentation only (app.py:318-371).
- The tooltip's coordinate strings (app.py:168-169) are float formatting with `:.2f`, which the
  model does not represent; the rows keep the coordinates as numbers.
- `pd.read_csv` is not part of this model. Its outcome (no file, an empty file, a parse error or
  a table) is the `Upload` parameter of `LoadUpload`. The dummy frame built when no file is
  uploaded is unused by the rest of the script.
- Frames.Coerce: pandas' string-to-number parser is the parameter `parse`, not a definition of
  which texts count as numbers. Cells are reals, so the infinities that `read_csv` and
  `pd.to_numeric` produce from "inf" / "-inf" are not represented. Such a cell is not NA, and
  `dropna` keeps its row, but in the model `parse` must either reject it (the row is then
  dropped) or give it a finite value.
- The classifier is not part of this model. Loading it (app.py:174-186) and calling `predict` /
  `predict_proba` become the parameters `hasModel` and `answer` of `PredictionPanel`. A failed
  load calls `st.stop()` (app.py:181, 184). The load runs at app.py:186, before the upload
  handler and the map section, so the whole rest of the script, the map included, does not run.
- `@st.cache_data` / `@st.cache_resource` memoisation: the model computes each value afresh,
  which gives the same results.
- The numeric widgets' bounds and steps (app.py:391-398) are not enforced. `Choices` accepts any
  numbers, and the request sends them unchanged, as the source does.
- A multiselect's requirement that its default be among its options (otherwise Streamlit
  raises) is not modelled. `PickSpecies` / `PickRegions` take the widget's returned value as a
  parameter.
- MapFilter.DefaultMonth: the tie-break between equally frequent months is the earliest in
  calendar order. That is how pandas orders the modes of an ordered categorical; the source
  itself does not state it. When no row has a month, `mode()[0]` raises. The model reports that
  as no month and does not model the resulting crash. The month selector's options are always
  the twelve categories (`all_months_tr`), so the branch for an absent column never applies to a
  processed table.
- Prediction.ShowVerdict: the percentage formatting of the probability (`*100:.2f`) is not
  modelled; the verdict carries the probability itself.
- An absent month, species, region or reason column makes `df.get(col, 'Unknown')` return a
  string, whose missing `.astype` / `.map` raises. The model follows this code, so an absent
  optional column yields `Raised` and not a column of "Unknown" labels. In particular, a one-row
  upload with the eight columns species, region, month, the four coordinates and the distance
  (no `Migration_Reason`) does not produce its row in app.py. It raises at app.py:158 and ends in
  the generic error message (`StorkWithoutReasonRaises`, `StorkWithoutReasonRejected`).
- The month filter is always applied, because the selectbox always holds one of the twelve
  months. No "no month selected" state exists in this code.
