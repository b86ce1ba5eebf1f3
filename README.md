# fp-marche soil-moisture model chain, in Dafny

This project models the `sm_model` package of fp-marche: the pipeline that drives a
point soil-moisture balance model over the measurement stations of the Marche region.
The package runs in three stages.

- The **static stage** (`driver_data_static.py`) reads the station registry and the
  model-parameter table as CSV. It filters and cleans both, joins them on the station
  tag, and caches the result as a pickle.
- The **dynamic stage** (`driver_data_dynamic.py`) runs once per station. It reads the
  rain, air-temperature and soil-moisture series and rescales them. It puts the three
  on one hourly grid and caches the combined series as CSV.
- The **model stage** (`driver_model_sm.py`) runs once per station. It cleans the
  combined series, masking no-data values, dropping empty rows and interpolating short
  gaps. It stacks the forcing matrix, selects the parameter vector and applies the
  balance model. It then writes the results and a metrics record. Its `view` step draws
  one figure per station.

The libraries under the drivers each have their own module:

- time handling: `lib_utils_time.py`;
- path-template filling, point merging and time windows: `lib_utils_io.py`;
- CSV, ASCII and generic readers and writers: `lib_data_io_*.py`;
- data preparation for the model: `lib_model_utils.py`.

How the source is represented:

- **Time.** Timestamps are whole minutes. Frequencies and rounding units are positive
  minute counts.
- **Frames.** A pandas series frame is `Frames.Frame`: a time index, named columns of
  `Values.Field` cells (`Null` stands for NaN), and attrs. A registry or parameter
  table is `Frames.Table`.
- **Dictionaries.** A Python dict whose order matters is a `Dicts.Dict`, an ordered
  sequence of pairs. Any other dict is a Dafny `map`.
- **Exceptions.** Every exception the source raises is an `Err` of `Wrappers.Result`,
  carrying the Python exception class.
- **The drivers.** Each driver is a class. `Files.FileSystem` stands for the directory
  tree: reset flags remove files with `RemoveIfExists`, and dumps write files with
  `Write`.
- **The loops.** Each driver loop is a method whose `ensures` ties the final file system
  and result to a specification function (`Organize`, `ExecLoop`, `ViewLoop`). These
  functions run the points in order and stop at the first exception. The lemmas prove
  what the stage promises: cache reuse, reset behaviour, and which files are written.

Several things are passed in as function-typed parameters rather than modelled:

- byte formats, through `Files.Codecs`;
- timestamp parsing;
- `str()` of a number;
- `sanitize_string`, `fill_tags2string` and `join_dframe`;
- the values pandas interpolation produces;
- the balance model `SMestim_IE_03`.

The model reproduces the source's quirks as written, and a lemma states each one:

- `DriverStatic.DelimiterLooksAtRegistry`;
- `IoCsv.FilterByLabelQuirk`;
- `IoCsv.Windowed`;
- `ModelUtils.ChainedCheckMisses`;
- `DriverModel.DriverModel.ViewResetKeepsFigure`.

## Model

| member | source | states |
|---|---|---|
| Wrappers.ParseAll | sm_model/lib_data_io_ascii.py:35 | Some iff every element parses, and then element i of the result is the parse of element i |
| Values.Unmark | sm_model/lib_model_utils.py:46-50 | a cell equal to the no-data value becomes Null; every other cell is unchanged |
| StringUtils.StripTrimsBothEnds | sm_model/lib_data_io_csv.py:94 | `strip()` is never longer than its input, neither starts nor ends with white space, and is the slice of the input between its leading and its trailing white space |
| StringUtils.StripIdempotent | sm_model/lib_data_io_csv.py:122-123 | stripping twice is stripping once |
| StringUtils.NatToStringInjective | sm_model/lib_data_io_ascii.py:37-39 | distinct numbers have distinct decimal renderings, so the `param_{n}` keys never collide |
| Dicts.AsMap | sm_model/lib_utils_io.py:89-101 | the map built from an ordered dict has exactly that dict's keys, and each key maps to the dict's value for it |
| Dicts.PutKeys | sm_model/driver_data_dynamic.py:279 | `d[k] = v` adds k to the keys, keeps the keys distinct, reads v at k and leaves the other keys alone |
| Dicts.MergeGet | sm_model/lib_model_utils.py:99 | in `{**a, **b}` the keys are the union, and a key of b reads b's value while any other key reads a's |
| Dicts.PutFresh | sm_model/lib_model_utils.py:108-111 | putting a fresh key appends the pair at the end, as insertion order requires |
| Dicts.MergeDistinct | sm_model/lib_model_utils.py:99 | a merge of dicts with distinct keys has distinct keys |
| TimeUtils.SplitTimePart | sm_model/lib_utils_time.py:29-38 | an empty frequency is an error; a leading letter gives period 1 and a unit as long as the input; otherwise the first character is the period and the unit is one shorter |
| TimeUtils.SplitTimePartJoins | sm_model/lib_utils_time.py:31-38 | with period 1 the unit is the lowered frequency; with a text period, period followed by unit is the lowered frequency |
| TimeUtils.SetHour | sm_model/lib_utils_time.py:49 | the result is on the same day, at the same minute, at hour h |
| TimeUtils.SetHourIdempotent | sm_model/lib_utils_time.py:49 | replacing the hour twice is the same as replacing it once |
| TimeUtils.ReplaceTimePart | sm_model/lib_utils_time.py:44-57 | an empty input gives an empty list; rounding other than "H" is NotImplementedError; an hour outside 0..23 is ValueError; otherwise every time gets the new hour, element by element |
| TimeUtils.Floor | sm_model/lib_utils_time.py:86 | the floored time is a multiple of the unit, at or before t and less than one unit before it |
| TimeUtils.FloorIsGreatest | sm_model/lib_utils_time.py:86 | no multiple of the unit lies strictly between the floor and t |
| TimeUtils.ChooseRunTime | sm_model/lib_utils_time.py:68-77 | the run time comes from the argument, else from the file, else from today |
| TimeUtils.SetTimeInfo | sm_model/lib_utils_time.py:63-90 | Err iff the chosen time does not parse; otherwise the run time is the parsed time and the reference time is the run time floored to the rounding unit |
| TimeUtils.Round | sm_model/lib_utils_time.py:142 | the rounded time is a multiple of the unit within half a unit of t; a tie goes to the even multiple |
| TimeUtils.DateRange | sm_model/lib_utils_time.py:144 | an inverted range is empty; otherwise the length is (end-start)/freq + 1, and element k is start + k*freq |
| TimeUtils.DateRangeMembers | sm_model/lib_utils_time.py:144 | t is in the range iff start <= t <= end and t - start is a multiple of freq |
| TimeUtils.DateRangeIncreasing | sm_model/lib_utils_time.py:144 | the range is strictly increasing |
| TimeUtils.PeriodRange | sm_model/lib_utils_time.py:150 | n times ending at end, each one freq after the previous |
| TimeUtils.DefineTimeRange | sm_model/lib_utils_time.py:130-161 | with both ends, the inclusive range between the rounded ends, reversed on request; otherwise, with a positive period and a reference, `period` steps ending at the rounded reference, whose first element is the start; a negative period is ValueError; with neither, RuntimeError |
| TimeUtils.MinOf | sm_model/lib_data_io_generic.py:39-44 | the result is an element, and no element is smaller |
| TimeUtils.MaxOf | sm_model/lib_data_io_generic.py:39-44 | the result is an element, and no element is larger |
| TimeUtils.RevRev | sm_model/lib_utils_time.py:158-159 | reversing twice gives back the sequence |
| TimeUtils.FirstWord | sm_model/lib_utils_time.py:109 | IndexError iff the text has no letter; otherwise the first maximal run of letters |
| TimeUtils.DefineTimeFrequency | sm_model/lib_utils_time.py:97-124 | a non-datetime index gives the default; an empty index is RuntimeError; one sample gives the default; two give the index resolution; three or more give the first word of the inferred frequency (or of the first step's resolution when none is inferred): a non-empty run of letters, and IndexError iff it has no letter |
| IoAscii.KeptLines | sm_model/lib_data_io_ascii.py:34-35 | the positions of exactly the non-blank lines, in increasing order |
| IoAscii.ReadParametersAscii | sm_model/lib_data_io_ascii.py:30-41 | ValueError iff a non-blank line does not parse as a number; otherwise the values are numbered `param_1`, `param_2`, ... in line order |
| IoAscii.NumberedSpec | sm_model/lib_data_io_ascii.py:35-39 | one entry per non-blank line, the keys are distinct, and key `param_n` reads the n-th value, counting from 1 |
| IoAscii.BlankLineIgnored | sm_model/lib_data_io_ascii.py:34-35 | adding a blank line does not change the parameters |
| IoAscii.LineAppended | sm_model/lib_data_io_ascii.py:35 | a non-blank line appended adds exactly one value at the end |
| IoUtils.Contributors | sm_model/lib_utils_io.py:33-44 | every contributor is a point whose frame has the variable, and every such point contributes |
| IoUtils.PointColumns | sm_model/lib_utils_io.py:38-42 | one column per contributing point, named by the point and holding its values of the variable |
| IoUtils.MergeStep | sm_model/lib_utils_io.py:33-44 | a point without the variable changes nothing; the first contributor starts the table; a later one adds its column, or is ValueError exactly when its length differs from the first |
| IoUtils.MergePointsToTable | sm_model/lib_utils_io.py:26-49 | a missing collection is IOError; no contributor gives None; ValueError iff the contributing series differ in length; otherwise one column per contributor over the first contributor's index |
| IoUtils.SelectTableByTimes | sm_model/lib_utils_io.py:56-69 | an empty time range is an error; otherwise the rows whose time lies within [min, max] of the range, in reverse order on request |
| IoUtils.SelectTableByTimesKeeps | sm_model/lib_utils_io.py:58-64 | a time is kept iff it is in the index and within the window |
| IoUtils.ReversedTimes | sm_model/lib_utils_io.py:66-67 | the reversed selection holds the same times |
| IoUtils.FillStringWithTime | sm_model/lib_utils_io.py:75-83 | the string is filled with the time stamped under every time tag |
| IoUtils.FillStringWithInfo | sm_model/lib_utils_io.py:89-101 | missing info is IOError; otherwise the string is filled with the info values of the tags the info has |
| IoUtils.TemplateValueKeys | sm_model/lib_utils_io.py:77-79 | the time values cover exactly the time tags, and the info values exactly the tags present in the info |
| IoCsv.StripNames | sm_model/lib_data_io_csv.py:94 | the same number of names, each one stripped |
| IoCsv.ValidPositions | sm_model/lib_data_io_csv.py:112-113 | exactly the rows whose `valid` cell is 1, in order |
| IoCsv.ApplyFilters | sm_model/lib_data_io_csv.py:125-140 | an error is a KeyError; a result keeps the columns and is well formed |
| IoCsv.ReadTable | sm_model/lib_data_io_csv.py:148-200 | a table without a `name` column is KeyError "name"; a tag column whose rows hold no string is AttributeError; without filters, the read succeeds iff the name column is present and the tags are strings; no other exception |
| IoCsv.ReadTableCsv | sm_model/lib_data_io_csv.py:90-146 | the imperative reader returns exactly the specification's table |
| IoCsv.CleanedTags | sm_model/lib_data_io_csv.py:101-107 | each tag is the file's tag or the sanitized name, stripped |
| IoCsv.CleanedCodes | sm_model/lib_data_io_csv.py:115-120 | each code is the file's code rendered as text, or k+1 for row k |
| IoCsv.DefaultCodesDistinct | sm_model/lib_data_io_csv.py:117-118 | synthesised codes are distinct |
| IoCsv.KeptPositionsValid | sm_model/lib_data_io_csv.py:112-113 | a row is kept iff its `valid` cell is 1, and the order is kept |
| IoCsv.ApplyFiltersRows | sm_model/lib_data_io_csv.py:125-140 | every row of a filtered table is a row of the input |
| IoCsv.ReadTableRows | sm_model/lib_data_io_csv.py:170-181 | every row read has `valid` equal to 1 and a tag that is either missing or stripped text |
| IoCsv.CleanedRow | sm_model/lib_data_io_csv.py:101-113 | a row of the cleaned table has `valid` equal to 1 when the column exists, and its tag is Null or stripped text |
| IoCsv.FilterByLabelQuirk | sm_model/lib_data_io_csv.py:198 | `.loc` with the positions of `enumerate` selects by label: a filter can keep a row that does not match |
| IoCsv.FilterOnPositions | sm_model/lib_data_io_csv.py:188-198 | when the labels are 0..n-1 a filter keeps exactly the matching rows |
| IoCsv.Windowed | sm_model/lib_data_io_csv.py:60-70 | ValueError iff a start is given without an end (the condition tests `time_start` twice); with both, the index becomes the date range of the floored ends; otherwise the frame is unchanged |
| IoCsv.ReadDatasets | sm_model/lib_data_io_csv.py:32-84 | no `time` column is KeyError; Err iff there is no time column, a time fails to parse, or the window is malformed; a result is well formed, keeps the other columns, carries the registry and time reference in attrs, and is sorted as asked |
| IoCsv.ReadDatasetsRows | sm_model/lib_data_io_csv.py:49-77 | without a window, the index is the parsed times under a permutation (the sorting order, or none), the columns are the file's renamed, and each cell moves with its row |
| IoCsv.ReadDatasetsWindow | sm_model/lib_data_io_csv.py:57-77 | with a window, the index is the range between the floored ends under a permutation, and each cell is the file's cell at that time, or missing |
| IoCsv.ParsedRows | sm_model/lib_data_io_csv.py:68-75 | a frame built from parsed rows and then sorted or not keeps every row whole under the sorting permutation |
| IoCsv.WindowCells | sm_model/lib_data_io_csv.py:60-75 | a frame aligned to a grid and then sorted or not holds, at each position, the cell of the source row at that grid time |
| IoCsv.WindowedRows | sm_model/lib_data_io_csv.py:57-75 | the window of a file's parsed rows, sorted or not, keeps the file's renamed column names and holds the grid's rows with each cell read by time |
| IoCsv.SortedRows | sm_model/lib_data_io_csv.py:70-75 | sorting a frame by its index, or not, moves every row whole by the sorting permutation, which is a permutation of the positions |
| IoCsv.FillMissing | sm_model/lib_data_io_csv.py:236-237 | every Null cell becomes the no-data value; other cells are unchanged |
| IoCsv.PreparedValues | sm_model/lib_data_io_csv.py:233-247 | the columns are renamed and their NaNs filled; the index is a permutation of the input's, in time order, and each cell moves with its row |
| IoCsv.Written | sm_model/lib_data_io_csv.py:250-252 | no column is named like the index label |
| IoCsv.WriteDatasets | sm_model/lib_data_io_csv.py:225-259 | the sheet has no Null cell, and the index label heads the columns exactly once |
| IoCsv.WriteReadRoundTrip | sm_model/lib_data_io_csv.py:225-259 | reading back a written frame with the default settings gives the prepared frame, its time column included |
| IoGeneric.ScaleCell | sm_model/lib_data_io_generic.py:59-61 | for a numeric cell: the no-data value or a missing cell stays no-data; any other value is multiplied by the scale factor |
| IoGeneric.Rescale | sm_model/lib_data_io_generic.py:70-72 | the array is rescaled in place, cell by cell, as `ScaleCell` says |
| IoGeneric.Prepared | sm_model/lib_data_io_generic.py:50-61 | no time column is KeyError; no value column is RuntimeError; a value column holding text or timestamps is TypeError; otherwise the values are scaled |
| IoGeneric.PrepareSource | sm_model/lib_data_io_generic.py:50-83 | the imperative preparation equals `Prepared` |
| IoGeneric.JoinChain | sm_model/lib_data_io_generic.py:86-90 | the joins succeed iff the sources share no column, and each value column then reads its own source at every grid time |
| IoGeneric.Finish | sm_model/lib_data_io_generic.py:92-99 | adding the time column, sorting and setting the attrs gives a well-formed frame that holds exactly the grid times (strictly descending when reversed, the grid itself otherwise), whose time column stamps each row and whose value columns read their sources, with the rain attrs |
| IoGeneric.Finished | sm_model/lib_data_io_generic.py:92-99 | the finished frame is well formed and carries the given attrs |
| IoGeneric.JoinOntoGrid | sm_model/lib_data_io_generic.py:86-99 | the imperative joins equal `OntoGrid`; ValueError iff two sources share a column; otherwise the frame is assembled on the grid from the three sources |
| IoGeneric.CombineDataPointByTime | sm_model/lib_data_io_generic.py:28-101 | a missing source gives None; no time at all is ValueError; column errors, including the TypeError of a non-numeric value column, come in source order; Err iff names clash; otherwise an hourly grid from the earliest to the latest time, strictly descending, each value read by time, with the time column and the rain attrs |
| Frames.SortIndexSpec | sm_model/lib_model_utils.py:38 | `sort_index` selects the rows by a permutation of their positions, and the resulting times are in order |
| Frames.SortIndexInOrder | sm_model/lib_data_io_csv.py:73-77 | sorting an index that is already in the asked order changes nothing |
| Frames.SortDescendingIncreasing | sm_model/lib_data_io_generic.py:96-97 | on a strictly increasing index, a descending sort keeps the same times and puts them in strictly descending order |
| Frames.LeftJoin | sm_model/lib_data_io_generic.py:88-90 | Err iff the two frames share a column name; otherwise the left index, attrs and columns are kept, and the right columns are appended, aligned by time |
| Frames.JoinNames | sm_model/lib_data_io_generic.py:88-90 | the join succeeds iff no right column name is a left one, and then the names are the left names followed by the right names |
| Frames.Rename | sm_model/lib_model_utils.py:63 | the index and values are kept, and every column name is mapped where the map has it |
| Frames.DropColumn | sm_model/lib_data_io_generic.py:52 | the named column is gone, no column is invented, and every other column keeps its values |
| Frames.Loc | sm_model/lib_data_io_csv.py:140 | KeyError iff a listed label is not in the table; otherwise a table with the same columns whose labels are the listed ones |
| Frames.LocByPosition | sm_model/lib_data_io_csv.py:198 | with labels 0..n-1, selecting by label is selecting by position |
| ModelUtils.ParseDirection | sm_model/lib_model_utils.py:53-56 | Ok iff the lowercased direction is forward, backward or both, and then the direction it names; otherwise ValueError |
| ModelUtils.FillGapsBoth | sm_model/lib_model_utils.py:53-56 | in both directions, a present value is kept, and a gap stays Null iff it lies farther than the limit from both sides |
| ModelUtils.FillGapsForwardLeading | sm_model/lib_model_utils.py:53-56 | in forward direction, a gap before the first value stays Null |
| ModelUtils.Interpolate | sm_model/lib_model_utils.py:53-56 | ValueError iff the limit is 0 or the lowercased direction is unknown; otherwise the length is kept |
| ModelUtils.NullRows | sm_model/lib_model_utils.py:41 | every cell of a row whose rain is no-data becomes Null; other rows are unchanged |
| ModelUtils.NonEmptyRows | sm_model/lib_model_utils.py:43 | exactly the rows with at least one value, in order |
| ModelUtils.MaskNoData | sm_model/lib_model_utils.py:46-50 | every no-data cell of the array becomes Null, in place |
| ModelUtils.MaskSeries | sm_model/lib_model_utils.py:46-50 | the air-temperature and soil-moisture columns are masked; the other columns are unchanged |
| ModelUtils.FillSeries | sm_model/lib_model_utils.py:53-56 | the two series are interpolated, the other columns kept; an error is ValueError |
| ModelUtils.CleanModelData | sm_model/lib_model_utils.py:31-56 | KeyError for the first missing column in read order; Err iff a column is missing or the interpolation settings are bad; a result keeps the columns and attrs |
| ModelUtils.SurvivorsSpec | sm_model/lib_model_utils.py:41-43 | a row survives iff its rain is not no-data and some cell of it has a value |
| ModelUtils.SurvivorKept | sm_model/lib_model_utils.py:41-43 | a surviving row is a row of the frame whose rain is not no-data and that has some value |
| ModelUtils.KeptSurvives | sm_model/lib_model_utils.py:41-43 | a row whose rain is not no-data and that has some value survives |
| ModelUtils.CleanModelDataRows | sm_model/lib_model_utils.py:38-43 | the surviving rows are in ascending time order |
| ModelUtils.CleanModelDataRain | sm_model/lib_model_utils.py:41-43 | no surviving rain cell is no-data |
| ModelUtils.CleanKeepsValues | sm_model/lib_model_utils.py:46-56 | a present, valid value of a series is unchanged by the cleaning |
| ModelUtils.CleanFillsShortGaps | sm_model/lib_model_utils.py:34-35 | with the defaults (limit 2, both directions), a gap stays Null iff it is more than two rows away from any value |
| ModelUtils.FilterModelData | sm_model/lib_model_utils.py:31-65 | the imperative filter returns the cleaned frame renamed by the inverted field map, or the cleaning's error |
| ModelUtils.StackColumns | sm_model/lib_model_utils.py:146-150 | Err iff the lengths differ; IOError only when both neighbouring pairs differ, as the chained `!=` reads; otherwise row i is the triple of the i-th values |
| ModelUtils.ChainedCheckMisses | sm_model/lib_model_utils.py:146 | lengths 1, 1, 2 pass the chained check and fail in the stack, with ValueError |
| ModelUtils.StackColumnsUnstack | sm_model/lib_model_utils.py:150 | the columns of the stacked matrix are the three inputs |
| ModelUtils.OrganizeModelData | sm_model/lib_model_utils.py:121-152 | IOError iff one of the three columns is missing; otherwise one row per time, and the time axis is the index |
| ModelUtils.PresentNames | sm_model/lib_model_utils.py:164-173 | exactly the listed names that are present, in list order |
| ModelUtils.OrganizeModelParameters | sm_model/lib_model_utils.py:158-178 | IOError iff the names are mandatory and one is missing; otherwise the values of the present names in list order (the default list applies when none is given) |
| ModelUtils.SelectedAllPresent | sm_model/lib_model_utils.py:160-167 | with every name present, value i is the parameter named i |
| ModelUtils.Restrict | sm_model/lib_model_utils.py:107-111 | the keys are those of the dict that are kept, each reading its value |
| ModelUtils.OrganizeModelMetrics | sm_model/lib_model_utils.py:93-115 | a one-row record labelled `info` holding the merged dict restricted to the fields |
| ModelUtils.FilterKeys | sm_model/lib_model_utils.py:107-111 | the comprehension loop keeps exactly the kept-key entries, in order |
| ModelUtils.MetricsRecordSpec | sm_model/lib_model_utils.py:99-111 | the keys are distinct and are the kept part of the union; time wins over the registry, which wins over the metrics |
| ModelUtils.OrganizeModelResults | sm_model/lib_model_utils.py:71-87 | ValueError iff the lengths differ or the results column already exists; otherwise every row and column is kept, renamed, and the results column reads the model values by time |
| Points.Records | sm_model/driver_data_dynamic.py:221 | one record per table row, zipping the column names with the row, with distinct keys |
| Points.PointTag | sm_model/driver_data_dynamic.py:224 | KeyError for a missing name or tag; Ok iff both are present and the tag is text, and then it is the tag |
| Points.PointInfo | sm_model/driver_data_dynamic.py:189 | the info gains `point_name`, holding the tag, and is otherwise unchanged |
| Points.DefineFileString | sm_model/driver_data_static.py:199-202 | the path is the template filled with the time tags, then with the info tags |
| Points.PointPathValues | sm_model/driver_data_dynamic.py:186-195 | the info values a point path uses are the run info plus its own tag |
| Files.FileSystem.RemoveIfExists | sm_model/driver_data_static.py:229-231 | the file is gone and no other file changes |
| Files.FileSystem.Write | sm_model/lib_data_io_csv.py:252 | the file holds the new content and no other file changes |
| DriverStatic.Delimiters | sm_model/driver_data_static.py:65-80 | KeyError iff the registry settings name a delimiter and the parameter settings do not; both delimiters come from their settings when the registry names one, and are `;` otherwise |
| DriverStatic.DelimiterLooksAtRegistry | sm_model/driver_data_static.py:77 | a parameters delimiter is ignored when the registry names none |
| DriverStatic.GetObjRegistry | sm_model/driver_data_static.py:92-115 | a missing file is IOError; a format other than csv is TypeError; otherwise the registry reader's result |
| DriverStatic.GetObjParameters | sm_model/driver_data_static.py:121-149 | a missing file is IOError; a format other than csv is TypeError; otherwise the parameter reader's result |
| DriverStatic.NewDriverData | sm_model/driver_data_static.py:36-86 | the delimiter error, or a fresh driver holding the settings and the chosen delimiters |
| DriverStatic.DriverData.OrganizeData | sm_model/driver_data_static.py:207-261 | the file system and result are those of the stage's specification |
| DriverStatic.DriverData.ResetIgnoresCache | sm_model/driver_data_static.py:229-231 | with reset, the result does not depend on an existing destination |
| DriverStatic.DriverData.BuildsDestination | sm_model/driver_data_static.py:234-250 | without a usable destination, a result is the join of registry and parameters, and it is pickled into the destination and nothing else; an error writes nothing |
| DriverStatic.DriverData.ReusesDestination | sm_model/driver_data_static.py:255-257 | with the destination present and no reset, nothing is written and no source is read |
| DriverDynamic.GetDatasets | sm_model/driver_data_dynamic.py:111-149 | a missing mandatory file is IOError; a missing optional file is None; a format other than csv is TypeError; otherwise the datasets reader's well-formed frame |
| DriverDynamic.DriverData.Combination | sm_model/driver_data_dynamic.py:249-268 | a missing rain file is IOError; an error of the rain, air-temperature or soil-moisture read, in that order, is the result; a missing soil-moisture file gives no frame; with the three reads done, the result is the combination of the three with the default settings, and a combination is well formed |
| DriverDynamic.DriverData.ProcessPoint | sm_model/driver_data_dynamic.py:224-295 | one point changes the file system and returns as the specification step says |
| DriverDynamic.DriverData.ComputePoint | sm_model/driver_data_dynamic.py:248-286 | reading the sources, combining them and dumping the combination change the files and return as the outcome of the point's combination says |
| DriverDynamic.DriverData.OrganizeData | sm_model/driver_data_dynamic.py:200-305 | the file system and result are those of the stage's specification |
| DriverDynamic.DriverData.ResetRecomputes | sm_model/driver_data_dynamic.py:241-246 | with reset, a point's step does not depend on its earlier destination |
| DriverDynamic.DriverData.CachedPoint | sm_model/driver_data_dynamic.py:288-291 | without reset, an existing destination is recorded and nothing is read or written |
| DriverDynamic.DriverData.StepFrame | sm_model/driver_data_dynamic.py:241-291 | a step changes no file other than the point's destination |
| DriverDynamic.DriverData.StepEffects | sm_model/driver_data_dynamic.py:267-291 | a recorded point's destination exists; a skipped point writes nothing and its combination is None; an error writes nothing; a fresh point writes its combination |
| DriverDynamic.DriverData.OutcomeEffects | sm_model/driver_data_dynamic.py:267-286 | an error or a missing combination leaves the files alone; a combination is dumped at the destination and recorded |
| DriverDynamic.DriverData.StepTwice | sm_model/driver_data_dynamic.py:246-291 | without reset, running a recorded point again changes nothing |
| DriverDynamic.DriverData.AdvanceRecords | sm_model/driver_data_dynamic.py:274-279 | without reset, files are only added, and each recorded tag maps to its own existing destination |
| DriverDynamic.DriverData.LoopRecords | sm_model/driver_data_dynamic.py:221-291 | without reset, from a collection whose tags are those of earlier points and whose paths exist, the rest of the loop only adds files, and a collection it returns maps tags of the registry to existing destinations |
| DriverDynamic.DriverData.OrganizeNone | sm_model/driver_data_dynamic.py:298-300 | an empty collection is returned as None |
| DriverModel.Scores | sm_model/driver_model_sm.py:335-337 | the six score names, each once |
| DriverModel.MetricsTable | sm_model/driver_model_sm.py:179-200 | the metrics file is a well-formed table of one row, whose columns are the record's keys in order and whose row holds their values |
| DriverModel.GetDatasets | sm_model/driver_model_sm.py:109-142 | a missing file is IOError; a format other than csv is TypeError; otherwise the datasets reader's well-formed frame |
| DriverModel.DriverModel.Products | sm_model/driver_model_sm.py:306-340 | an error of the data read or the cleaning is the result; otherwise the result is the model run on the filtered data |
| DriverModel.DriverModel.Filtered | sm_model/driver_model_sm.py:306-313 | an error of the data read or of the cleaning is the result; otherwise the cleaned frame renamed by the data files' inverted field map |
| DriverModel.DriverModel.Outputs | sm_model/driver_model_sm.py:314-340 | a frame missing a forcing column is IOError, and missing parameters an error; given both, the point succeeds iff the simulated series is as long as the frame's index and the frame has no `values_model` column, and fails otherwise with ValueError; a result holds the metrics of the model run on the frame's index, its three forcing columns and the record's parameters, and the frame with the simulated series joined by time as `values_model` |
| DriverModel.DriverModel.Compute | sm_model/driver_model_sm.py:308-340 | the imperative computation returns the products |
| DriverModel.DriverModel.ExecPoint | sm_model/driver_model_sm.py:277-351 | one record changes the file system and returns as the specification step says |
| DriverModel.DriverModel.ResetPoint | sm_model/driver_model_sm.py:293-299 | with a reset flag, the point's results, metrics and figure files are gone; otherwise nothing changes |
| DriverModel.DriverModel.ExecTaggedPoint | sm_model/driver_model_sm.py:292-343 | a point with a tag changes the files and returns as its specification says: reset, skip, or compute and dump |
| DriverModel.DriverModel.DumpPoint | sm_model/driver_model_sm.py:328-343 | the two dumps change the files and return as `Dump` says |
| DriverModel.DriverModel.Exec | sm_model/driver_model_sm.py:248-351 | the file system and result are those of the specification loop, which stops at the first exception |
| DriverModel.DriverModel.ViewPoint | sm_model/driver_model_sm.py:381-423 | one record of `view` changes the file system and returns as the specification step says |
| DriverModel.DriverModel.View | sm_model/driver_model_sm.py:357-426 | the file system and result are those of the specification loop, which stops at the first exception |
| DriverModel.DriverModel.MetricsOfSpec | sm_model/driver_model_sm.py:334-340 | the metrics record has distinct keys: the scores, the registry fields and `time`, restricted to the metrics fields |
| DriverModel.MetricsEntries | sm_model/lib_model_utils.py:99-111 | the merged metrics, registry fields and time have distinct keys, restricted to the fields, and time wins over the registry, which wins over the scores |
| DriverModel.ScoredEntries | sm_model/lib_model_utils.py:99-111 | with the six score names, the metrics keys are those names, the registry keys and `time`, restricted to the fields, and each takes its value from `time`, else the registry, else the scores |
| DriverModel.DriverModel.ExecReset | sm_model/driver_model_sm.py:293-299 | with a reset flag, a point does not see its earlier results, metrics or figure |
| DriverModel.DriverModel.ExecSkips | sm_model/driver_model_sm.py:302-305 | with results present or no data file, a point writes nothing and does not fail |
| DriverModel.DriverModel.DumpEffects | sm_model/driver_model_sm.py:147-200 | the dumps succeed iff both formats are csv; an error keeps what was written before it; success writes the results and the metrics files |
| DriverModel.DriverModel.ExecComputes | sm_model/driver_model_sm.py:302-343 | a point with data and no results computes its products and dumps them, or fails without writing |
| DriverModel.DriverModel.ViewEffects | sm_model/driver_model_sm.py:395-415 | a figure is drawn only when both results and metrics exist |
| DriverModel.DriverModel.ViewResetKeepsFigure | sm_model/driver_model_sm.py:395-397 | the figure reset removes the unexpanded template path, so a point's old figure survives it |

## Left out

- **Calendar frequencies.** Pandas frequency strings and calendar arithmetic are not
  modelled: frequencies and rounding units are minute counts. `pd.infer_freq` and the
  index `resolution_string` are parameters of `TimeUtils.DefineTimeFrequency`.
- **Unicode letters.** `StringUtils.IsLetter` and `StringUtils.LowerChar` know only
  ASCII letters. Python's `str.isalpha` and `str.lower`, in `split_time_part` and in
  pandas' reading of `limit_direction`, also accept other Unicode letters.
- **Today's date.** `date.today()` is an input.
- **Timestamp formats.** Timestamp parsing and `strftime` are codec parameters.
- **`datetime_to_datenum`.** Not modelled: it is floating-point calendar arithmetic.
- **Write sort order.** `IoCsv.Prepared` sorts by time, not by the formatted stamp.
  Stamps with minute resolution sort into the same order.
- **Interpolation.** `ModelUtils.FillGaps`: the values interpolation produces are
  abstract (`interp`), and only which cells get filled is modelled. A limit of `None`
  is not modelled.
- **`fillna(inplace=True)`.** `IoCsv.FillMissing` also changes the caller's frame in
  place. The model does not capture that aliasing.
- **Ties in the time sort.** `Frames.SortOrder` sorts stably: rows with equal times keep
  their file order. pandas' default `sort_index` does not promise an order for ties, so
  `IoCsv.ReadDatasetsRows`, `IoCsv.ReadDatasetsWindow` and `IoCsv.PreparedValues` fix
  one admissible order among several; `Frames.SortIndexSpec` states only what holds for
  all of them, a permutation in time order.
- **Joins.** `Frames.LeftJoin` takes the first matching time. Pandas would repeat rows
  when a time occurs more than once.
- **File formats.**
  - The byte formats of CSV, pickle and PNG files are the `Files.Codecs` parameters.
  - `read_csv` and `to_csv` parsing and formatting are not modelled.
  - Float formatting is part of the codec rendering. The `%.3f` the model stage passes
    is swallowed by `write_datasets_csv`'s `**kwargs`, so the default `%.2f` applies.
  - `write_metrics_csv` is the codec rendering of the one-row metrics table. Its
    `file_fields` argument has no effect in the source either.
- **`dump_obj_datasets` arguments.** The `dframe_*` arguments are swallowed by
  `write_datasets_csv`'s `**kwargs`, so the writer's defaults apply.
- **Merge index name.** The index name `time` that `merge_points_to_table` sets is not
  modelled.
- **Folders and paths.** `make_folder` and `os.path.split`: folders are not modelled.
  Path templates are already joined strings.
- **Foreign functions.** These are given as parameters:
  - `sanitize_string`;
  - `fill_tags2string`;
  - `join_dframe`;
  - `invert_dict`, as the inverted field maps;
  - `map_vars_dframe`;
  - the balance model `SMestim_IE_03`. It is in `lib_fx_sm_model`, which is not part
    of this model.
- **Non-pickle collections.** `dump_obj_collections` and `read_obj_collections` raise
  for a format other than pickle. The static driver always calls them with the pickle
  default, so that branch is not modelled.
- **Dynamic registry.** The dynamic driver's `__init__` reads
  `alg_data_static['parameters']`, a key the static stage never writes. The
  constructor takes the registry directly.
- **Registry attrs.** The registry frames attached as attrs in the dynamic and model
  stages are `None`. `view` receives the record as a map.
- **Time reference in records.** The time reference in the metrics record is the
  `Stamp` cell of the time.
- **Double renaming.** The results frame is renamed by `fields_results` twice: in
  `organize_model_results` and in the write. The model does both.
- **Exceptions mid-loop.** When a point raises, the files written for earlier points
  stay. This is modelled by the (files, result) pair of every step.
- DriverDynamic.DriverData.LoopRecords: stated only without reset. With reset, a
  removed destination may be recorded again under the same tag.
- **Plotting.** `plot_model_results` and `configure_time_axes`: the figure file is the
  `plot` codec of the results and metrics.
- **Application wiring.** Logging, argument parsing, timing and the application
  entry point (`app_model_sm_main.py`, `lib_info_args.py`) are not part of this model.
