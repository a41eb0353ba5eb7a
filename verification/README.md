# ITS_LIVE velocity datacube builder — a Dafny model

This project models the `ITSCube` class of ITS_LIVE (`src/itscube.py`).
`ITSCube` builds a datacube of glacier velocity image pairs.

- It asks the granule search API for the image-pair granules that cover a polygon.
- It drops superseded duplicates, i.e. granules of the same image pair that were processed earlier.
- It reads every granule and crops it to the cube's bounding box. It keeps the layers in the target projection that hold data, and logs the others as empty or as foreign-projection granules.
- It assembles the accumulated layers into cube variables, batch by batch (`combine_layers`), and writes each batch to a Zarr store. The first write creates the store and later writes append to it.

The model is split into one module per concern:

| file | module | what it holds |
|---|---|---|
| `wrappers.dfy` | `Wrappers` | `Option`, `Result`, `Outcome` |
| `errors.dfy` | `Errors` | one constructor per exception the class raises |
| `text.dfy` | `Text` | the Python string operations the class relies on: `split`, `join`, `basename`, `replace`, slicing, `str(int)` |
| `dates.dfy` | `Dates` | `strptime`/`strftime` with `%Y%m%d` and `%Y%m%dT%H:%M:%S`, day ordinals, middle dates |
| `filenames.dfy` | `Filenames` | `get_tokens_from_filename` and the rewrite of a granule URL to its S3 path |
| `dedup.dfy` | `Dedup` | the specification of `skip_duplicate_granules` (which granules survive and in what order) and its properties |
| `granules.dfy` | `Granules` | a granule as xarray presents it; `get_data_var`, `get_data_var_attr` and its date conversion |
| `preprocess.dfy` | `Preprocess` | `preprocess_dataset`: projection check, crop to the box, empty-layer and cell-size checks |
| `assembly.dfy` | `Assembly` | per-variable pieces of `combine_layers`: concatenation, placeholders, chip-size fallback, projection variable, consistency checks, derived names and descriptions |
| `combine.dfy` | `Combine` | `process_v_attributes` as a specification: the error, `stable_count*`, flag and shift steps and what they add and remove |
| `layers.dfy` | `Layers` | `combine_layers` as a chain of stage functions from the cube's variables before a stage to the variables after it |
| `reading.dfy` | `Reading` | reading granules from storage, in order or slice by slice, and the URLs that end up kept or logged as empty |
| `batching.dfy` | `Batching` | batch arithmetic of the two drivers: chunks of `NUM_GRANULES_TO_WRITE`, slices, write modes |
| `cube.dfy` | `DataCube` | the `ITSCube` class itself (see below) |

The class `DataCube.ITSCube` keeps the state the source keeps:

- the accumulator `ds`/`dates`/`urls`;
- the three skip logs;
- `num_urls_from_api`;
- the cube being assembled, a `CubeLayers` object updated in place.

Its methods update that state step by step as the source does.
`SkipDuplicateGranules` runs the filter loop over a dictionary of kept groups and is proved against `Dedup.Expected`.
`CombineLayers` fills the cube variable by variable; each stage method is proved against the matching `Layers` stage function.
`Create` and `CreateParallel` run the two driver loops.
The output store is a `ZarrStore` object whose `writes` field records each write: its mode, its records' URLs and middle dates, and the assembled cube.
A granule's storage is a map from S3 path to granule, given as a parameter.

## Model

| member | source | states |
|---|---|---|
| `Text.SplitJoin` | src/itscube.py:329 | splitting a name joined with `_` from pieces that contain no `_` gives the pieces back |
| `Text.JoinSplit` | src/itscube.py:245-250 | joining the pieces of a split with the same separator gives the original string |
| `Text.BasenameAfterSlash` | src/itscube.py:329 | the base name of `dir/name` is `name` when `name` holds no `/` |
| `Text.ReplaceOnce` | src/itscube.py:446-447 | `str.replace` of a pattern that occurs once substitutes exactly that occurrence and leaves the rest unchanged |
| `Text.Slice` | src/itscube.py:709 | Python slicing clamps out-of-range bounds: in range it is the plain subsequence, and it is never longer than the string |
| `Text.DecimalStringInjective` | src/itscube.py:781 | two integers have the same decimal string exactly when they are equal. So, for a projection text in canonical decimal form (no leading zeros, no sign other than a leading `-`), comparing `str(int(epsg))` with it is comparing the numbers; a text such as `03413` never matches |
| `Dates.ParseYmd` | src/itscube.py:330-334 | `strptime(s, '%Y%m%d')` succeeds exactly on 8 digits naming a real calendar day (leap years included), and yields that day |
| `Dates.ParseYmdHms` | src/itscube.py:710-718 | `strptime(s, '%Y%m%dT%H:%M:%S')` succeeds exactly on that shape with a valid date and time, and yields them |
| `Dates.FormatYmd` | src/itscube.py:245-250 | `strftime('%Y%m%d')` of a valid date is 8 digits |
| `Dates.ParseFormatYmd` | src/itscube.py:245-250 | parsing a formatted date gives the date back |
| `Dates.FormatParseYmd` | src/itscube.py:245-250 | formatting a parsed date string gives the string back, so the granule id's date text carries exactly the parsed date |
| `Dates.ParseFormatYmdHms` | src/itscube.py:710-718 | parsing a formatted date and time gives it back |
| `Dates.OrdinalMonotone` | src/itscube.py:782-786 | the day number strictly increases with calendar order |
| `Dates.MidDateOrder` | src/itscube.py:782-786 | middle dates follow the order of the centre dates; for one centre date they follow the millisecond offsets |
| `Filenames.DateToken` | src/itscube.py:330-334 | a date token converts exactly when `strptime` accepts it, and to the parsed date; otherwise the error names the token |
| `Filenames.GetTokensFromFilename` | src/itscube.py:324-337 | succeeds exactly when the base name has at least 13 `_`-separated tokens and tokens 3, 4, 11 and 12 are dates; the fields are taken from tokens 3, 4, 2, 11, 12 and 10; the path/rows contain no `_`; otherwise the error is a missing token or a bad date |
| `Filenames.TokensOfGranuleName` | src/itscube.py:324-337 | reading the tokens of a granule name written from given dates and path/rows gives them back |
| `Filenames.ExampleTokens` | src/itscube.py:84-86 | the granule name documented in the class yields the acquisition dates, processing dates and path/rows written in it |
| `Filenames.S3PathOfBucketUrl` | src/itscube.py:446-447 | `http://<bucket>.s3.amazonaws.com<key>` is rewritten to `s3://<bucket><key>` |
| `Dedup.Entries` | src/itscube.py:239-242 | the granule records of the URLs, in input order, carry those URLs; the first URL that cannot be tokenized decides the error |
| `Dedup.EntriesFailureExtends` | src/itscube.py:239-242 | once a URL fails to tokenize, appending more URLs does not change the error |
| `Dedup.ReplacesIsLex` | src/itscube.py:283-293 | for processing-date pairs that differ, the replace test is exactly "lexicographically newer on (proc1, proc2)" |
| `Dedup.NewerProc1Replaces` | src/itscube.py:289-293 | a newer first processing date wins even when the second one is older, and the older granule never replaces the newer |
| `Dedup.MaxProcBounds` | src/itscube.py:252-310 | the newest processing-date pair of a group belongs to a granule of the group and is at least as new as every other granule's pair |
| `Dedup.KeptShape` | src/itscube.py:252-313 | a kept group is non-empty, and every granule in it comes from the input, has the group's key and has its newest dates |
| `Dedup.ExpectedMembers` | src/itscube.py:228-321 | a granule is returned exactly when it is in the input and carries the newest processing dates of its pair |
| `Dedup.EqualDatesKeptTogether` | src/itscube.py:263-270 | granules with the same pair and the same processing dates are kept or dropped together |
| `Dedup.NewerDiscards` | src/itscube.py:283-309 | a granule is dropped when another granule of its pair has newer processing dates |
| `Dedup.EveryKeyKept` | src/itscube.py:311-313 | every image pair of the input is represented in the result |
| `Dedup.Idempotent` | src/itscube.py:228-321 | filtering the filter's own output changes nothing |
| `Dedup.GranuleIdInjective` | src/itscube.py:245-250 | two granule id strings are equal exactly when their acquisition dates and path/rows are equal |
| `Dedup.Without` | src/itscube.py:302 | the list comprehension keeps exactly the URLs that are not removed |
| `DataCube.FindEqual` | src/itscube.py:258-270 | the scan reports exactly whether a kept granule of the group has the newcomer's processing dates |
| `DataCube.CollectReplaced` | src/itscube.py:277-293 | the collected URLs are exactly the kept granules the newcomer supersedes, in group order |
| `DataCube.ConcatGroups` | src/itscube.py:315-317 | the result is the kept groups concatenated in the dictionary's insertion order |
| `DataCube.ITSCube.SkipDuplicateGranules` | src/itscube.py:228-321 | records the number of examined URLs; fails exactly when a URL cannot be tokenized; otherwise returns the specified survivors in first-seen group order, and the survivors together with the duplicate log are the input as a multiset |
| `DataCube.FilterGranule` | src/itscube.py:252-313 | one turn of the filter loop keeps its invariant: the group keys are the pairs in first-seen order and each group holds the URLs of its pair with the newest processing date among the URLs examined so far, and the kept URLs together with the duplicate log are the examined URLs as a multiset |
| `DataCube.PrefixOf` | src/itscube.py:223 | the result is a prefix of the list; a non-negative `n` keeps `min(n, len)` elements and a negative `n` drops `-n` from the end (leaving none when `-n` exceeds the length), as Python's `s[:n]` does |
| `DataCube.Truncated` | src/itscube.py:222-223 | a given positive `num_granules` keeps that many leading URLs (at most all), a negative one drops that many from the end, and zero or none keeps the whole answer; the result is always a prefix of the answer |
| `DataCube.ITSCube.RequestGranules` | src/itscube.py:192-226 | an empty answer is returned unchanged with the logs untouched; otherwise the examined URLs are counted and filtered, and the survivors plus the duplicate log are the examined URLs as a multiset |
| `Granules.ToDate` | src/itscube.py:703-721 | a non-string value cannot be converted; a conversion yields a date and time, or leaves a short value that is not in the three-token form unchanged; failures are conversion errors |
| `Granules.ToDateOfYmd` | src/itscube.py:712-714 | `YYYYMMDD` converts to midnight of that day |
| `Granules.ToDateOfYmdHms` | src/itscube.py:716-718 | `YYYYMMDDTHH:MM:SS` converts to that date and time |
| `Granules.ToDateOfSentinel` | src/itscube.py:705-710 | the malformed Sentinel-2 form `YYYYMMDDTHHMMSST...` is repaired and converts to the date and time it encodes |
| `Granules.ToDateOfShort` | src/itscube.py:703-719 | a string shorter than a date, and not in the three-token form, comes back unchanged |
| `Granules.GetDataVarAttr` | src/itscube.py:681-730 | a present attribute is returned, unwrapped from a one-element array and converted when asked; an absent one gives the default, or raises when there is none |
| `Granules.GetDataVarAttrUnwrapsDate` | src/itscube.py:699-714 | a one-element array holding a date string is unwrapped and converted to that date |
| `Granules.Placeholder` | src/itscube.py:671-672 | the placeholder has the grid's shape and every cell missing |
| `Granules.GetDataVar` | src/itscube.py:657-678 | the granule's own variable when present, otherwise an all-missing variable on the cube's grid |
| `Granules.CollectAttr` | src/itscube.py:1476-1478 | the per-record attribute list succeeds exactly when every record's read does, holds each record's value in order, and otherwise fails with the first record's error |
| `Granules.GlobalAttr` | src/itscube.py:1492 | `ds.attrs[name]` succeeds exactly when the attribute is present, and returns it |
| `Granules.VarAttr` | src/itscube.py:1555-1558 | a variable's attribute is read exactly when the variable carries it |
| `Granules.DistinctAtMostOne` | src/itscube.py:1252-1254 | `len(set(values)) > 1` is false exactly when all values are equal |
| `Preprocess.KeepIndices` | src/itscube.py:789-791 | the kept indices are increasing and are exactly the positions of coordinates inside the bounds |
| `Preprocess.PickKeepIndices` | src/itscube.py:789-799 | the coordinates at the kept indices are exactly the in-range coordinates, in order |
| `Preprocess.KeepIndicesEmpty` | src/itscube.py:792-796 | no index is kept exactly when no coordinate lies inside the bounds |
| `Preprocess.Crop` | src/itscube.py:799 | the crop keeps every variable and attribute, restricts the coordinates to the kept ones, and is well shaped |
| `Preprocess.Epsg` | src/itscube.py:774-781 | `int(ds.mapping.spatial_epsg)` reads exactly when the attribute is present and is an integer or a non-empty string of digits; a negative projection comes only from an integer attribute |
| `Preprocess.PreprocessDataset` | src/itscube.py:732-823 | no `mapping` variable raises; a result carries the granule's URL and its `spatial_epsg`; a layer has data exactly when it has a middle date, and an empty layer has no data |
| `Preprocess.PreprocessCases` | src/itscube.py:774-823 | the result in every case. An unreadable `spatial_epsg` or middle date raises. Another projection gives `(False, proj, None, url, None)`. A box that misses every column or every row gives `(True, proj, None, url, None)`. Otherwise the crop decides, as `CheckCrop` states |
| `Preprocess.CheckCrop` | src/itscube.py:799-821 | a crop without `v` raises; a `v` with no value gives `(True, proj, None, url, None)`; otherwise fewer than two columns raise, a spacing other than 240 raises with that spacing, and the cube's spacing keeps the crop with its middle date |
| `Preprocess.KeptLayerChecked` | src/itscube.py:797-813 | a kept layer comes from a granule in the cube's projection that meets the box: it is the crop with its middle date, its `v` has a value, and its x spacing is the cell size |
| `Preprocess.EmptyLayerMissed` | src/itscube.py:780-819 | an empty layer is a granule in the cube's projection whose middle date reads and which the box misses, or whose `v` has no value inside the box |
| `Preprocess.KeptLayerInBox` | src/itscube.py:788-799 | a kept layer's coordinates are exactly the granule's coordinates inside the box |
| `Preprocess.InRangeWithin` | src/itscube.py:789-791 | a coordinate survives the crop exactly when it is in the granule and inside the bounds |
| `Reading.ReadLayer` | src/itscube.py:1715-1724 | a result carries the URL it was read for; a URL whose S3 path is not in storage cannot be opened |
| `Reading.ReadAllFirstFailure` | src/itscube.py:444-460 | reading a list stops with the error of the first URL that fails |
| `Reading.KeptUrlsAre` | src/itscube.py:339-352 | a URL joins the accumulator exactly when one of its results carries data |
| `Reading.KeptNotEmpty` | src/itscube.py:339-361 | each result is kept, logged as empty, or neither, so together the kept and empty URLs are no more than the results |
| `Reading.ReadSlices` | src/itscube.py:512-530 | reading the slices yields one result list per slice |
| `Reading.SlicesRead` | src/itscube.py:507-531 | reading slice by slice succeeds exactly when reading their concatenation does, with the same results and the same kept URLs |
| `Reading.DriversAgree` | src/itscube.py:420-545 | both drivers read the same granules and store the same kept URLs in the same order |
| `Batching.FlattenChunks` | src/itscube.py:462-472 | the batches written, put back together, are the kept URLs |
| `Batching.ChunkSizes` | src/itscube.py:462-472 | every batch is non-empty and holds at most `NUM_GRANULES_TO_WRITE` URLs, and all but the last hold exactly that many |
| `Batching.ChunksOfFull` | src/itscube.py:466-472 | full batches flushed in the loop followed by the short remainder are the chunks of the whole list |
| `Batching.SlicesAreChunks` | src/itscube.py:507-543 | the parallel loop's `found_urls[start:start+num_tasks]` slices are the chunks of the URL list |
| `Batching.SlicesStep` | src/itscube.py:510-543 | one more turn of the parallel loop takes the next slice of `min(N, remaining)` URLs |
| `Batching.NonEmptyFlatten` | src/itscube.py:530-536 | slices that produced no layer write nothing and lose nothing |
| `Batching.ParallelModesSnoc` | src/itscube.py:536-540 | a slice writes only if it produced layers, creating the store only on the very first slice |
| `Batching.CorrectedModesWellFormed` | src/itscube.py:536-540 | with the flag cleared only after a write, the first write creates the store and all later writes append |
| `Batching.ModesAgreeWhenFirstSliceWrites` | src/itscube.py:536-540 | when the first slice produced layers, the code as written and the corrected one choose the same modes |
| `Batching.AppendOnly` | src/itscube.py:536-540 | when the first slice produced nothing, every write appends |
| `Batching.FirstSliceEmptyAppends` | src/itscube.py:536-540 | a first slice with no layers followed by one with layers writes only once, in append mode, to a store never created |
| `Assembly.Concat` | src/itscube.py:1309 | `xr.concat` succeeds exactly when every record holds the variable; the grids follow record order and the attributes are the first record's |
| `Assembly.ConcatOrPlaceholder` | src/itscube.py:1291-1294 | a record lacking the variable contributes an all-missing grid; the others their own grid |
| `Assembly.UrlColumn` | src/itscube.py:1157-1158 | the URL variable holds each record's URL in order |
| `Assembly.ProjectionVariable` | src/itscube.py:1207-1216 | the projection variable is `Polar_Stereographic`, then `UTM_Projection`, then `mapping`, whichever the record holds first; none when it holds none |
| `Assembly.MappingColumn` | src/itscube.py:1207-1230 | without a projection variable the first write raises; otherwise the scalar `mapping` carries that variable's attributes |
| `Assembly.UniqueValue` | src/itscube.py:1504-1507 | succeeds exactly when all values are equal, returning that value; otherwise raises the given error |
| `Assembly.IsNewFormat` | src/itscube.py:1249 | the format test needs `v.grid_mapping` on the first record and is true exactly when it names `mapping` |
| `Assembly.GridMappingValue` | src/itscube.py:1245-1263 | a batch passes only when every record reports the same grid mapping; the error otherwise is the multiple-values error |
| `Assembly.ParameterFile` | src/itscube.py:1501-1507 | the recorded parameter file is that of every record; when every record carries the same one it is recorded; a batch whose records all carry one and that fails has differing values |
| `Assembly.TimeStandard` | src/itscube.py:1551-1561 | the recorded time standard is that of every record; when every record carries the same one it is recorded; records that all carry one and fail have differing values |
| `Assembly.ChipHeightVar` | src/itscube.py:1399-1404 | a record contributes its own chip height unless every cell is the no-value code 65535, and then its chip width |
| `Assembly.ChipHeightColumn` | src/itscube.py:1399-1404 | the cube's chip height holds each record's contribution in order |
| `Assembly.ChipHeightKept` | src/itscube.py:1400-1401 | a height grid with a usable cell is kept |
| `Assembly.WithGridMapping` | src/itscube.py:1082-1091 | the data is untouched; a present `grid_mapping` is kept, otherwise the batch's value is set |
| `Assembly.WithGridMappingIdempotent` | src/itscube.py:1087-1089 | setting the attribute again keeps the first value |
| `Assembly.DerivedNames` | src/itscube.py:873-1072 | a component derives four error names then three shift names |
| `Assembly.DerivedNamesDistinct` | src/itscube.py:873-1072 | the seven derived names of a component are pairwise different |
| `Assembly.DerivedDisjoint` | src/itscube.py:1309-1387 | components named without `_` derive disjoint names, so no component overwrites another's variables |
| `Assembly.ErrorDescription` | src/itscube.py:896-910 | the first record's own description wins; otherwise a built-in description; it raises exactly when neither exists |
| `Assembly.DescriptionsKnown` | src/itscube.py:833-844 | for the six components the cube processes, every error kind has a description, so the unknown-description error never happens |
| `Assembly.ErrorValue` | src/itscube.py:880-894 | a record's error value is its own attribute, else the legacy `stable_rmse` for `vx`/`vy`, else the missing value; it raises only for `vx`/`vy` when the record lacks the component |
| `Assembly.ErrorValues` | src/itscube.py:880-894 | an error variable holds every record's value in order, or the missing-component error |
| `Combine.DropAttrs` | src/itscube.py:859-869 | the listed attributes leave the component and nothing else changes |
| `Combine.Defaulted` | src/itscube.py:1001-1002 | an attribute read with a default never raises and yields each record's value or the default |
| `Combine.ErrorColumn` | src/itscube.py:880-921 | an error variable exists exactly when its values and description can be read; it holds each record's value and the description |
| `Combine.ErrorFoldOutcome` | src/itscube.py:873-929 | the error loop raises exactly when one of its columns does, with the first one's error |
| `Combine.ErrorFoldUpdated` | src/itscube.py:873-929 | the error loop adds its error variables and removes the attributes they replace from the component, keeping everything on the record axis |
| `Combine.ErrorFoldColumns` | src/itscube.py:912-921 | each added error variable holds its column |
| `Combine.CountFoldOutcome` | src/itscube.py:933-991 | the `stable_count*` steps raise exactly when one creates a variable whose values cannot be read |
| `Combine.CountFoldColumns` | src/itscube.py:933-991 | each created count variable holds its attribute's values, and variables already present are kept |
| `Combine.ShiftFoldColumns` | src/itscube.py:1019-1076 | each shift variable holds its column |
| `Combine.ErrorColumnsOk` | src/itscube.py:880-894 | the error columns all succeed exactly when, for `vx`/`vy`, every record holds the component; the first column fails first |
| `Combine.CountValuesOk` | src/itscube.py:933-991 | a count attribute can be read exactly when every record carries it; otherwise the error names a record that lacks it |
| `Combine.VAttributesOutcome` | src/itscube.py:825-1080 | `process_v_attributes` succeeds exactly when `vx`/`vy` is held by every record and each count variable it creates has its attribute on every record |
| `Combine.VAttributesFails` | src/itscube.py:825-1080 | its error is the missing component first, then the missing count attribute of some record |
| `Combine.VAttributesUpdated` | src/itscube.py:825-1080 | it adds the seven derived variables and the once-per-batch variables it creates, on the record axis, strips the replaced attributes from the component and keeps every other variable |
| `Combine.VAttributesErrors` | src/itscube.py:873-929 | each error variable holds the error column read from the records |
| `Combine.VAttributesShifts` | src/itscube.py:1019-1076 | each shift variable holds the shift column read from the records |
| `Combine.VAttributesCounts` | src/itscube.py:933-991 | a count variable is created from the records by the first component whose first record carries its attribute |
| `Combine.VAttributesFlag` | src/itscube.py:997-1009 | the flag variable is created by the first component the first record holds, defaulting missing values |
| `Combine.VAttributesKeepsOnce` | src/itscube.py:933-1009 | later components never touch the count and flag variables already created |
| `DataCube.CubeLayers.AddErrorVariables` | src/itscube.py:873-929 | the error loop, in place, ends in the specified error-loop result or its first error, and returns the error names |
| `DataCube.CubeLayers.AddCountVariables` | src/itscube.py:933-991 | the count steps, in place, end in the specified result or its first error |
| `DataCube.CubeLayers.AddFlagVariable` | src/itscube.py:997-1017 | the flag step, in place, ends in the specified result |
| `DataCube.CubeLayers.AddShiftVariables` | src/itscube.py:1019-1076 | the shift loop, in place, ends in the specified result and returns the shift names |
| `DataCube.CubeLayers.AddRecordVariables` | src/itscube.py:1472-1485 | the attribute loop, in place, ends in the specified fold or stops at the first attribute that cannot be read |
| `DataCube.CubeLayers.MarkMissingValues` | src/itscube.py:1624-1632 | the marking loop, in place, ends in the specified marking |
| `Layers.CubeAttrs` | src/itscube.py:1185-1198 | the cube's attributes are its projection, the two skip logs, the parameter file and the two time standards |
| `Layers.HeaderVars` | src/itscube.py:1157-1158 | a fresh cube holds only the URL variable, on the record axis |
| `Layers.WithMapping` | src/itscube.py:1207-1230 | the first write adds `mapping` or raises for a first record without a projection variable; later writes change nothing |
| `Layers.ScaleStage` | src/itscube.py:1268-1283 | `map_scale_corrected` is added exactly when the first record's `v` carries it, and it leaves `v` |
| `Layers.Tag` | src/itscube.py:1082-1091 | tagging one variable leaves the others untouched |
| `Layers.PlaceholderStage` | src/itscube.py:1291-1301 | the variable is gathered with placeholders and tagged, the rest of the cube is kept |
| `Layers.ComponentStage` | src/itscube.py:1309-1329 | `vx`/`vy` adds the component and its derived variables, keeping earlier variables on the record axis |
| `Layers.AzimuthStage` | src/itscube.py:1333-1346 | `va` adds the component and its derived variables |
| `Layers.RadarStage` | src/itscube.py:1349-1394 | `vr`, `vxp`, `vyp` add the component and its derived variables |
| `Layers.ChipStage` | src/itscube.py:1399-1442 | the chip stage succeeds exactly when the chip heights and widths can be gathered, and adds them with the mask |
| `Layers.GriddedStagesStep` | src/itscube.py:1291-1470 | the gridded stages keep the earlier variables and add every gridded variable |
| `Layers.PairInfoColumnValues` | src/itscube.py:1472-1485 | an `img_pair_info` variable holds each record's attribute, converted to a date for `date_center` |
| `Layers.AttrFoldColumns` | src/itscube.py:1472-1485 | after the attribute loop each name holds the column read for it |
| `Layers.SoftwareStage` | src/itscube.py:1491-1499 | the software version succeeds exactly when every record carries it, and holds each record's value |
| `Layers.AcquisitionValue` | src/itscube.py:1512-1522 | the old attribute name is read when present, otherwise the new one, both converted to dates |
| `Layers.AcquisitionStage` | src/itscube.py:1512-1548 | an acquisition date variable succeeds exactly when every record's date can be read, and holds them |
| `Layers.MarkMissingMarks` | src/itscube.py:1624-1632 | marked variables get `missing_value` when they lacked it and keep their own otherwise; the rest is unchanged |
| `Layers.GriddedVarsShape` | src/itscube.py:1143-1470 | after the gridded part, every variable is on the record axis, the URLs are kept, `mapping` exists exactly on the first write, and every `new_v_vars` variable exists |
| `Layers.PairInfoVars` | src/itscube.py:1472-1499 | the pair-info variables hold each record's attribute |
| `Layers.AcquisitionVars` | src/itscube.py:1512-1548 | both acquisition date variables are added, holding each record's dates |
| `Layers.TimeStandardsBoth` | src/itscube.py:1551-1561 | the time-standard loop succeeds exactly when both standards are consistent, fails with the first inconsistency, and records both |
| `Layers.RecordsAndAttrs` | src/itscube.py:1472-1561 | the per-record variables hold the records' values and the cube's attributes are completed |
| `Layers.CombinedShape` | src/itscube.py:1143-1566 | before the marking, the batch cube is on the record axis, keeps the URLs, has `mapping` exactly on the first write and holds every `new_v_vars` variable |
| `Layers.AssembleShape` | src/itscube.py:1143-1632 | the assembled cube is on the record axis, keeps every URL, and on the first write only carries a scalar `mapping` with the attributes of the first record's projection variable |
| `Layers.AssembleMissingValue` | src/itscube.py:1624-1632 | on the first write, every `new_v_vars` variable carries `missing_value` (its own or the fill value) and nothing else changes; later writes add nothing |
| `Layers.GriddedVarsChecks` | src/itscube.py:1245-1263 | a batch past the gridded part agrees on its grid mapping |
| `Layers.AssembleAttrs` | src/itscube.py:1185-1561 | an assembled batch agrees on its grid mapping, and the cube's parameter file and time standards are those of every record |
| `Layers.GriddedVarsEarlyFailures` | src/itscube.py:1207-1263 | the first errors of a batch: no projection variable on a first write, then a record without `v`, then the grid-mapping check |
| `Layers.AssembleColumns` | src/itscube.py:1472-1548 | the assembled cube's per-record variables hold the records' values |
| `DataCube.ITSCube.constructor` | src/itscube.py:100-162 | a new object has an empty accumulator, no count, empty skip logs and no cube |
| `DataCube.ITSCube.ClearVars` | src/itscube.py:167-179 | the accumulator and cube are cleared; counts and skip logs are kept |
| `DataCube.ITSCube.Clear` | src/itscube.py:181-190 | everything is reset as in a new object |
| `DataCube.ITSCube.AddLayer` | src/itscube.py:339-361 | a result with data joins all three accumulator lists; an empty one goes to the empty log; one in a foreign projection goes to that projection's log; nothing else changes |
| `DataCube.ITSCube.SetGridMappingAttr` | src/itscube.py:1082-1091 | the variable is tagged in place as specified |
| `DataCube.ITSCube.ProcessVAttributes` | src/itscube.py:825-1080 | the cube is updated in place to the specified result of `process_v_attributes`, or it raises the same error; it returns the derived names |
| `DataCube.ITSCube.AddPlaceholderVariable` | src/itscube.py:1291-1301 | in place, the placeholder stage |
| `DataCube.ITSCube.AddComponent` | src/itscube.py:1309-1329 | in place, the `vx`/`vy` stage or its error |
| `DataCube.ITSCube.AddAzimuth` | src/itscube.py:1333-1346 | in place, the `va` stage or its error |
| `DataCube.ITSCube.AddRadarComponent` | src/itscube.py:1349-1394 | in place, the `vr`/`vxp`/`vyp` stage or its error |
| `DataCube.ITSCube.AddChipSizes` | src/itscube.py:1399-1442 | in place, the chip stage or its error |
| `DataCube.ITSCube.AddComponents` | src/itscube.py:1291-1330 | in place, `v_error`, `vx` and `vy` |
| `DataCube.ITSCube.AddAlongRadarComponents` | src/itscube.py:1333-1362 | in place, `va` and `vr` |
| `DataCube.ITSCube.AddProjectedComponents` | src/itscube.py:1365-1394 | in place, `vxp` and `vyp` |
| `DataCube.ITSCube.AddRadarComponents` | src/itscube.py:1333-1394 | in place, the four radar components |
| `DataCube.ITSCube.AddSpeedVariables` | src/itscube.py:1399-1470 | in place, the chip sizes, mask, `vp` and `vp_error` |
| `DataCube.ITSCube.AddGriddedVariables` | src/itscube.py:1291-1470 | in place, every gridded variable after `v` |
| `DataCube.ITSCube.AddMapping` | src/itscube.py:1207-1230 | in place, the projection variable on the first write |
| `DataCube.ITSCube.AddVelocity` | src/itscube.py:1238-1283 | `v` is added exactly when every record holds it and the batch agrees on its grid mapping, which it returns |
| `DataCube.ITSCube.AddGriddedLayers` | src/itscube.py:1143-1470 | in place, the gridded part of the batch; it returns `new_v_vars` |
| `DataCube.ITSCube.AddPairInfo` | src/itscube.py:1472-1499 | in place, the pair-info and software-version variables |
| `DataCube.ITSCube.AddAcquisitionDates` | src/itscube.py:1512-1548 | in place, both acquisition date variables |
| `DataCube.ITSCube.AddTimeStandards` | src/itscube.py:1551-1561 | both time standards become cube attributes exactly when each is consistent across the batch |
| `DataCube.ITSCube.AddRecordsAndAttrs` | src/itscube.py:1472-1561 | in place, the per-record variables and the cube's attributes |
| `DataCube.ITSCube.FillCube` | src/itscube.py:1143-1566 | the whole batch cube before marking, in place |
| `DataCube.ITSCube.AssembleLayers` | src/itscube.py:1143-1632 | the batch cube as written, in place, or the first error |
| `DataCube.ITSCube.CombineLayers` | src/itscube.py:1138-1690 | an empty accumulator writes nothing; otherwise the assembled cube is written, creating the store on the first write and appending afterwards, and the accumulator is cleared; an error writes nothing |
| `DataCube.ITSCube.Flush` | src/itscube.py:1138-1690 | as the drivers use it: a flush of a non-empty accumulator writes one batch with its URLs, dates and mode and empties the accumulator |
| `DataCube.ITSCube.AddLayers` | src/itscube.py:530-531 | after a slice's results, the accumulator holds its kept URLs and the empty log its empty ones |
| `DataCube.ITSCube.Accumulate` | src/itscube.py:462-468 | one result is added and a full batch is flushed, keeping the batching invariant |
| `DataCube.ITSCube.FlushRest` | src/itscube.py:470-472 | the remainder is flushed, so the writes are the chunks of the kept URLs |
| `DataCube.ITSCube.ReadAndWrite` | src/itscube.py:441-472 | the granules are read in order; the writes appended to the store are the consecutive batches of the kept URLs, the first creating the store; the empty log holds the empty granules |
| `DataCube.ITSCube.Create` | src/itscube.py:420-477 | returns the requested list or its error; on success every granule was read, the store received the batches of kept URLs in order (first write creates it), and the accumulator is empty |
| `DataCube.ITSCube.TakeSlice` | src/itscube.py:530-540 | one slice adds its results and writes its layers, if any, in the mode the loop gives it |
| `DataCube.ITSCube.ReadSlice` | src/itscube.py:512-540 | one slice is read, then taken |
| `DataCube.ITSCube.SliceAndWrite` | src/itscube.py:507-543 | the slice loop reads every slice, writes one batch per slice that produced layers, in the loop's modes |
| `DataCube.ITSCube.CreateParallel` | src/itscube.py:479-545 | returns the requested list or its error; on success the store received one write per slice that produced layers, holding its kept URLs, in the modes of the code as written |

## Left out

- I/O is not modelled. That covers the granule search API, S3 and xarray file access, logging, `tqdm` progress bars, timing, `gc.collect()` and memory reports (`show_memory_usage`). The API answer and the granule storage are parameters.
- `pyproj` and `Grid.create` are not modelled. The constructor takes the projection, the bounding box and the grid; the polygon's longitude/latitude conversion and the cube centre are left out.
- `create_from_local_no_api`, `create_from_local_parallel_no_api`, `read_dataset`, `init_output_store`, `init_input_store`, `ds_to_netcdf`, `plot` and `format_stats` are left out. They read local files, set up output stores or only report.
- `dask.compute` is modelled as a sequential, in-order map over one slice. Concurrency is not modelled.
- `drop_vars` after each variable is not modelled. A dropped variable is never read again, so the cube is the same.
- The cube's descriptive attributes (`description`, `standard_name`, `units`, coordinate attributes, creation dates, the centre longitude/latitude) are left out. So are the Zarr encoding and compression settings of the first write.
- Numbers are integers: coordinates in metres and `date_dt` in whole milliseconds. Floating point is not modelled.
- Date parsing is fixed width. Python's `strptime` also accepts unpadded month, day and hour fields, which the model rejects.
- A granule that cannot be opened, or whose variables do not lie on its own x/y grid, is modelled as the `CannotOpen` error.
- Some attribute names the class uses are not defined in `itscube_types.py`. For `DataVars.AUTORIFT_SOFTWARE_VERSION` and `DataVars.AUTORIFT_PARAMETER_FILE` the model uses the spelling `autoRIFT_software_version` / `autoRIFT_parameter_file`. That spelling follows the comment at `src/itscube.py:1489` and `ImgPairInfo.AUTORIFT_SOFTWARE_VERSION` (`src/itscube_types.py:210`). The global `autoRIFT_software_version` therefore overwrites the `img_pair_info` column of the same name (`src/itscube.py:1491`). `ImgPairInfo.ACQUISITION_DATE_IMG1`/`IMG2` and `TIME_STANDARD_IMG1`/`IMG2` are taken to be their lower-case spellings.
- `Preprocess.Epsg` reads an integer `spatial_epsg`, or a string of decimal digits. A string with a sign, surrounding whitespace or underscores raises `BadAttributeValue`, although Python's `int()` (`src/itscube.py:781`) accepts it. A floating-point `spatial_epsg` is not modelled.
- `skipped_wrong_projection` is kept as a log per projection. It is not written into the cube's attributes, because its JSON encoding is not modelled.
- `Layers.AttrFold` does not state that the attribute loop succeeds whenever every attribute is readable. Only the other direction is stated, with the column read for each name.
- `DataCube.ITSCube.Flush`'s contract is lighter than `DataCube.ITSCube.CombineLayers`'s. It states the URLs, dates and mode of the batch written, not the assembled cube. The cube is stated by `CombineLayers`.
- `DataCube.ITSCube.Create` states the writes' URLs and modes, not each write's assembled cube. The cube is given per batch by `CombineLayers`.
- `DataCube.ITSCube.CreateParallel` states the writes' URLs and modes, not each write's assembled cube.

## Findings

| source | as written | input that shows it | evidently intended | confidence | as-written member | corrected member |
|---|---|---|---|---|---|---|
| src/itscube.py:536-540 | `create_parallel` clears `is_first_write` after the first slice even when that slice wrote nothing, because `combine_layers` returns early on an empty accumulator | a first slice whose granules are all empty or in a foreign projection, then a slice with layers: layer counts `[0, 1]` | clear the flag after the first slice that actually writes, so the first write creates the store | high, proved about the model; not executed | `Batching.FirstSliceEmptyAppends` | `Batching.CorrectedModesWellFormed` |

`DataCube.ITSCube.CreateParallel` models the loop as written: its writes follow `Batching.ParallelModes`.
`Batching.ModesAgreeWhenFirstSliceWrites` shows that the written and the corrected modes coincide whenever the first slice produces layers.
`Batching.CorrectedParallelModes` is the corrected rule.
