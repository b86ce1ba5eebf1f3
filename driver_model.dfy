/** The model stage (sm_model/driver_model_sm.py): for every point of the registry, the
    combined series written by the dynamic stage feed the soil-moisture balance model, and
    the simulated series and the fit metrics are written to the point's results and
    metrics files (`exec`); `view` draws each point's figure from those two files. */
module DriverModel {
  import opened Wrappers
  import opened Values
  import opened Frames
  import opened Files
  import opened Points
  import opened IoCsv
  import opened ModelUtils
  import TimeUtils
  import IoUtils
  import Dicts

  /** What `SMestim_IE_03` returns: the simulated soil moisture and six fit scores. */
  datatype Simulation = Simulation(theta: seq<Field>, ns: Field, nsLnQ: Field, nsRadQ: Field,
                                   kge: Field, rmse: Field, rq: Field)

  /** The balance model, from the time axis, the forcing matrix and the parameter vector. */
  type Model = (seq<Time>, seq<(Field, Field, Field)>, seq<Field>) -> Simulation

  /** The six scores under the names `exec` gives them. */
  function Scores(sim: Simulation): (d: Dicts.Dict<Field>)
    ensures Dicts.Distinct(d)
    ensures Dicts.Keys(d) == {"ns", "ns_ln_q", "ns_rad_q", "kge", "rmse", "rq"}
  {
    var d := [("ns", sim.ns), ("ns_ln_q", sim.nsLnQ), ("ns_rad_q", sim.nsRadQ),
              ("kge", sim.kge), ("rmse", sim.rmse), ("rq", sim.rq)];
    assert d[0].0 in Dicts.Keys(d) && d[1].0 in Dicts.Keys(d) && d[2].0 in Dicts.Keys(d);
    assert d[3].0 in Dicts.Keys(d) && d[4].0 in Dicts.Keys(d) && d[5].0 in Dicts.Keys(d);
    d
  }

  /** The metrics entries of a point: scores, registry fields and the time stamp, later
      sources winning, restricted to `fields` when given. */
  lemma MetricsEntries(scores: Dicts.Dict<Field>, record: Dicts.Dict<Field>, stamp: Field,
                       fields: Option<map<string, string>>)
    requires Dicts.Distinct(scores) && Dicts.Distinct(record)
    ensures var common := Common(scores, record, [("time", stamp)]);
      var r := Restrict(common, if fields.Some? then fields.value.Keys else Dicts.Keys(common));
      var keys := Dicts.Keys(scores) + Dicts.Keys(record) + {"time"};
      && Dicts.Distinct(r)
      && Dicts.Keys(r) == (if fields.Some? then keys * fields.value.Keys else keys)
      && forall k | k in Dicts.Keys(r) ::
           Dicts.Get(r, k) == (if k == "time" then stamp
                               else if k in Dicts.Keys(record) then Dicts.Get(record, k)
                               else Dicts.Get(scores, k))
  {
    var t := [("time", stamp)];
    var common := Common(scores, record, t);
    assert Dicts.Keys(t) == {"time"} by {
      assert t[0].0 == "time";
    }
    assert Dicts.Get(t, "time") == stamp;
    Dicts.MergeGet(scores, record);
    Dicts.MergeGet(Dicts.Merge(scores, record), t);
    MetricsRecordSpec(scores, record, t, if fields.Some? then fields.value.Keys else Dicts.Keys(common));
  }

  /** `MetricsEntries` for the six scores of a simulation. */
  lemma ScoredEntries(scores: Dicts.Dict<Field>, record: Dicts.Dict<Field>, stamp: Field,
                      fields: Option<map<string, string>>)
    requires Dicts.Distinct(scores) && Dicts.Distinct(record)
    requires Dicts.Keys(scores) == {"ns", "ns_ln_q", "ns_rad_q", "kge", "rmse", "rq"}
    ensures var common := Common(scores, record, [("time", stamp)]);
      var r := Restrict(common, if fields.Some? then fields.value.Keys else Dicts.Keys(common));
      var keys := {"ns", "ns_ln_q", "ns_rad_q", "kge", "rmse", "rq"} + Dicts.Keys(record) + {"time"};
      && Dicts.Distinct(r)
      && Dicts.Keys(r) == (if fields.Some? then keys * fields.value.Keys else keys)
      && forall k | k in Dicts.Keys(r) ::
           Dicts.Get(r, k) == (if k == "time" then stamp
                               else if k in Dicts.Keys(record) then Dicts.Get(record, k)
                               else Dicts.Get(scores, k))
  {
    MetricsEntries(scores, record, stamp, fields);
  }

  /** The metrics file: `to_csv` without the index, so one header line of the record's
      keys and one line of its values. */
  function MetricsTable(rec: Record): (t: Table)
    ensures WfTable(t)
    ensures |t.rows| == 1 && |t.columns| == |rec.entries| && |t.rows[0]| == |rec.entries|
    ensures forall i | 0 <= i < |rec.entries| :: t.columns[i] == rec.entries[i].0 && t.rows[0][i] == rec.entries[i].1
  {
    Table(seq(|rec.entries|, i requires 0 <= i < |rec.entries| => rec.entries[i].0), [0],
          [seq(|rec.entries|, i requires 0 <= i < |rec.entries| => rec.entries[i].1)])
  }

  /** `get_obj_datasets` of the model driver: a missing file is an IOError, a format other
      than csv a TypeError, and a csv file is read with ',' and no field map. */
  function GetDatasets(files: map<string, string>, path: string, format: string,
                       registry: Option<map<string, Field>>, reference: Time, codecs: Codecs): (r: Result<Frame>)
    requires Sound(codecs)
    ensures path !in files ==> r.Err? && r.error.IOError?
    ensures path in files && format != "csv" ==> r.Err? && r.error.TypeError?
    ensures path in files && format == "csv" ==>
      r == ReadDatasets(codecs.parse(files[path], ","), map[], registry, Stamp(reference), DefaultRead, codecs.parseTime)
    ensures r.Ok? ==> Wf(r.value)
  {
    if path !in files then Err(IOError("File parameters must be available"))
    else if format == "csv" then
      ReadDatasets(codecs.parse(files[path], ","), map[], registry, Stamp(reference), DefaultRead, codecs.parseTime)
    else Err(TypeError("Case not implemented yet"))
  }

  /** The model driver: run settings, templates and the foreign model are fixed; what
      changes is the file system. */
  class DriverModel {
    const time: Time
    const info: map<string, Field>
    const templates: Templates
    const fill: IoUtils.Filler
    const registry: Table
    const dataPath: string
    const dataInverse: map<string, string>
    const resultsPath: string
    const resultsFormat: string
    const resultsFields: Option<map<string, string>>
    const metricsPath: string
    const metricsFormat: string
    const metricsFields: Option<map<string, string>>
    const figurePath: string
    const resetResults: bool
    const resetMetrics: bool
    const resetFigure: bool
    const model: Model
    const interp: (seq<Field>, nat) -> real
    const codecs: Codecs

    /** `__init__`; `dataInverse` is the inverted field map of the data files. */
    constructor (time: Time, info: map<string, Field>, templates: Templates, fill: IoUtils.Filler,
                 registry: Table, dataPath: string, dataInverse: map<string, string>,
                 resultsPath: string, resultsFormat: string, resultsFields: Option<map<string, string>>,
                 metricsPath: string, metricsFormat: string, metricsFields: Option<map<string, string>>,
                 figurePath: string, resetResults: bool, resetMetrics: bool, resetFigure: bool,
                 model: Model, interp: (seq<Field>, nat) -> real, codecs: Codecs)
      ensures this.time == time && this.info == info && this.templates == templates && this.fill == fill
      ensures this.registry == registry && this.dataPath == dataPath && this.dataInverse == dataInverse
      ensures this.resultsPath == resultsPath && this.resultsFormat == resultsFormat && this.resultsFields == resultsFields
      ensures this.metricsPath == metricsPath && this.metricsFormat == metricsFormat && this.metricsFields == metricsFields
      ensures this.figurePath == figurePath && this.resetResults == resetResults
      ensures this.resetMetrics == resetMetrics && this.resetFigure == resetFigure
      ensures this.model == model && this.interp == interp && this.codecs == codecs
    {
      this.time := time;
      this.info := info;
      this.templates := templates;
      this.fill := fill;
      this.registry := registry;
      this.dataPath := dataPath;
      this.dataInverse := dataInverse;
      this.resultsPath := resultsPath;
      this.resultsFormat := resultsFormat;
      this.resultsFields := resultsFields;
      this.metricsPath := metricsPath;
      this.metricsFormat := metricsFormat;
      this.metricsFields := metricsFields;
      this.figurePath := figurePath;
      this.resetResults := resetResults;
      this.resetMetrics := resetMetrics;
      this.resetFigure := resetFigure;
      this.model := model;
      this.interp := interp;
      this.codecs := codecs;
    }

    ghost predicate Valid() {
      WfTable(registry) && Sound(codecs)
    }

    /** A path template expanded for one point (`point_name` = the point's tag). */
    function PathOf(tmpl: string, tag: string): string {
      FileString(tmpl, time, PointInfo(info, tag), templates, fill)
    }

    /** The metrics record: the six scores, then the point's registry fields, then `time`,
        later sources winning, restricted to the metrics fields when there are any. */
    function MetricsOf(sim: Simulation, record: Dicts.Dict<Field>): Record {
      var common := Common(Scores(sim), record, [("time", Stamp(time))]);
      Record("info", Restrict(common, if metricsFields.Some? then metricsFields.value.Keys else Dicts.Keys(common)))
    }

    /** The data of one point as the model reads it: the data file read, the forcing
        series cleaned, and the columns renamed by the data files' inverted field map. */
    function Filtered(text: string): (r: Result<Frame>)
      requires Valid()
      ensures var data := ReadDatasets(codecs.parse(text, ","), map[], None, Stamp(time), DefaultRead, codecs.parseTime);
        && (data.Err? ==> r == Err(data.error))
        && (data.Ok? && CleanModelData(data.value, DefaultFilter, interp).Err? ==>
              r == Err(CleanModelData(data.value, DefaultFilter, interp).error))
        && (data.Ok? && CleanModelData(data.value, DefaultFilter, interp).Ok? ==>
              r == Ok(Rename(CleanModelData(data.value, DefaultFilter, interp).value, dataInverse)))
      ensures r.Ok? ==> Wf(r.value)
    {
      var data :- ReadDatasets(codecs.parse(text, ","), map[], None, Stamp(time), DefaultRead, codecs.parseTime);
      var cleaned :- CleanModelData(data, DefaultFilter, interp);
      Ok(Rename(cleaned, dataInverse))
    }

    /** The balance model run on a point's filtered data and registry record: the forcing
        matrix is the three `values_k*` columns of the frame, the time axis its index, the
        parameters the record's; the results frame is the frame with the simulated series
        joined by time as `values_model`, and the metrics are the simulation's. */
    function Outputs(filtered: Frame, record: Dicts.Dict<Field>): (r: Result<(Frame, Record)>)
      requires Wf(filtered)
      ensures !Has(filtered, DefaultForcing.0) || !Has(filtered, DefaultForcing.1) || !Has(filtered, DefaultForcing.2) ==>
        r == Err(OrganizeModelData(filtered, DefaultForcing).error) && r.error.IOError?
      ensures OrganizeModelData(filtered, DefaultForcing).Ok? && ParameterVector(Dicts.AsMap(record), None, true).Err? ==>
        r == Err(ParameterVector(Dicts.AsMap(record), None, true).error)
      ensures var forcing := OrganizeModelData(filtered, DefaultForcing);
        var params := ParameterVector(Dicts.AsMap(record), None, true);
        forcing.Ok? && params.Ok? ==>
          && (r.Ok? <==> |model(filtered.index, forcing.value.0, params.value).theta| == |filtered.index|
                         && !Has(filtered, ResultsName))
          && (r.Err? ==> r.error.ValueError?)
      ensures r.Ok? ==>
        var forcing := OrganizeModelData(filtered, DefaultForcing);
        var params := ParameterVector(Dicts.AsMap(record), None, true);
        && forcing.Ok? && params.Ok?
        && forcing.value.1 == filtered.index
        && var sim := model(filtered.index, forcing.value.0, params.value);
        && r.value.1 == MetricsOf(sim, record)
        && var results := r.value.0;
        && var rf := if resultsFields.Some? then resultsFields.value else map[];
        && Wf(results)
        && |sim.theta| == |filtered.index| && !Has(filtered, ResultsName)
        && results.index == filtered.index
        && |results.columns| == |filtered.columns| + 1
        && (forall c | 0 <= c < |filtered.columns| ::
              results.columns[c] == Column(RenameName(filtered.columns[c].name, rf), filtered.columns[c].values))
        && results.columns[|filtered.columns|].name == RenameName(ResultsName, rf)
        && forall k | 0 <= k < |filtered.index| ::
             results.columns[|filtered.columns|].values[k] == LookupAt(filtered.index, sim.theta, filtered.index[k])
    {
      var forcing :- OrganizeModelData(filtered, DefaultForcing);
      var params :- ParameterVector(Dicts.AsMap(record), None, true);
      var sim := model(forcing.1, forcing.0, params);
      var results :- OrganizeModelResults(filtered, sim.theta, forcing.1,
                                          if resultsFields.Some? then resultsFields.value else map[]);
      Ok((results, MetricsOf(sim, record)))
    }

    /** What `exec` computes for one point from its data file: the results frame and the
        metrics record, or the exception raised on the way. */
    function Products(text: string, record: Dicts.Dict<Field>): (r: Result<(Frame, Record)>)
      requires Valid()
      ensures Filtered(text).Err? ==> r == Err(Filtered(text).error)
      ensures Filtered(text).Ok? ==> r == Outputs(Filtered(text).value, record)
      ensures r.Ok? ==> Wf(r.value.0)
    {
      var filtered :- Filtered(text);
      Outputs(filtered, record)
    }

    /** The results file (`write_datasets_csv` with its defaults and the results fields). */
    function ResultsFile(results: Frame): string
      requires Wf(results)
    {
      codecs.render(WriteDatasets(results, resultsFields, codecs.stamp, DefaultWrite), ",")
    }

    /** The metrics file (`write_metrics_csv`, separator ','). */
    function MetricsFile(rec: Record): string {
      codecs.render(MetricsTable(rec), ",")
    }

    /** The two dumps, results first; an unsupported format raises before its file. */
    function Dump(files: map<string, string>, resultsAt: string, metricsAt: string, results: Frame, rec: Record)
      : (map<string, string>, Result<()>)
      requires Wf(results)
    {
      if resultsFormat != "csv" then (files, Err(TypeError("Case not implemented yet")))
      else
        var written := files[resultsAt := ResultsFile(results)];
        if metricsFormat != "csv" then (written, Err(TypeError("Case not implemented yet")))
        else (written[metricsAt := MetricsFile(rec)], Ok(()))
    }

    /** The files a point starts from in `exec`: with either reset flag, its results,
        metrics and figure files are removed. */
    function ExecPresent(files: map<string, string>, tag: string): map<string, string> {
      if resetResults || resetMetrics then
        files - {PathOf(resultsPath, tag)} - {PathOf(metricsPath, tag)} - {PathOf(figurePath, tag)}
      else files
    }

    /** One point of `exec` once its tag is known: skipped when its results exist or its
        data file does not, computed and dumped otherwise. */
    function ExecTagged(files: map<string, string>, record: Dicts.Dict<Field>, tag: string)
      : (map<string, string>, Result<()>)
      requires Valid()
    {
      var present := ExecPresent(files, tag);
      var data := PathOf(dataPath, tag);
      if PathOf(resultsPath, tag) in present || data !in present then (present, Ok(()))
      else
        match Products(present[data], record)
        case Err(e) => (present, Err(e))
        case Ok(p) => Dump(present, PathOf(resultsPath, tag), PathOf(metricsPath, tag), p.0, p.1)
    }

    /** One record of `exec`: its tag (which may raise), then the point. */
    function ExecStep(files: map<string, string>, record: Dicts.Dict<Field>): (map<string, string>, Result<()>)
      requires Valid()
    {
      match PointTag(record)
      case Err(e) => (files, Err(e))
      case Ok(tag) => ExecTagged(files, record, tag)
    }

    /** The records of `exec` from position `i` on; an exception ends the loop and the
        later records are not processed. */
    function ExecLoop(files: map<string, string>, records: seq<Dicts.Dict<Field>>, i: nat): (map<string, string>, Result<()>)
      requires Valid() && i <= |records|
      decreases |records| - i
    {
      if i == |records| then (files, Ok(()))
      else
        var next := ExecStep(files, records[i]);
        if next.1.Err? then next else ExecLoop(next.0, records, i + 1)
    }

    /** One point of `view` once its tag is known. The figure reset removes the figure
        path template itself, not the point's figure; the figure is drawn only when both
        the results and the metrics files exist. */
    function ViewTagged(files: map<string, string>, record: Dicts.Dict<Field>, tag: string)
      : (map<string, string>, Result<()>)
      requires Valid()
    {
      var present := if resetFigure then files - {figurePath} else files;
      var res := PathOf(resultsPath, tag);
      var met := PathOf(metricsPath, tag);
      if res in present && met in present then
        match GetDatasets(present, res, "csv", Some(Dicts.AsMap(record)), time, codecs)
        case Err(e) => (present, Err(e))
        case Ok(results) =>
          match GetDatasets(present, met, "csv", Some(Dicts.AsMap(record)), time, codecs)
          case Err(e) => (present, Err(e))
          case Ok(metrics) => (present[PathOf(figurePath, tag) := codecs.plot(results, metrics)], Ok(()))
      else (present, Ok(()))
    }

    function ViewStep(files: map<string, string>, record: Dicts.Dict<Field>): (map<string, string>, Result<()>)
      requires Valid()
    {
      match PointTag(record)
      case Err(e) => (files, Err(e))
      case Ok(tag) => ViewTagged(files, record, tag)
    }

    /** The records of `view` from position `i` on; an exception ends the loop. */
    function ViewLoop(files: map<string, string>, records: seq<Dicts.Dict<Field>>, i: nat): (map<string, string>, Result<()>)
      requires Valid() && i <= |records|
      decreases |records| - i
    {
      if i == |records| then (files, Ok(()))
      else
        var next := ViewStep(files, records[i]);
        if next.1.Err? then next else ViewLoop(next.0, records, i + 1)
    }

    /** The computation of one point, as `exec` performs it: the data file read, the
        methods of the model utilities run, the model applied. */
    method Compute(text: string, record: Dicts.Dict<Field>) returns (r: Result<(Frame, Record)>)
      requires Valid() && Dicts.Distinct(record)
      ensures r == Products(text, record)
    {
      var data := ReadDatasets(codecs.parse(text, ","), map[], None, Stamp(time), DefaultRead, codecs.parseTime);
      if data.Err? {
        return Err(data.error);
      }
      var filtered := FilterModelData(data.value, dataInverse, DefaultFilter, interp);
      if filtered.Err? {
        return Err(filtered.error);
      }
      var forcing := OrganizeModelData(filtered.value, DefaultForcing);
      if forcing.Err? {
        return Err(forcing.error);
      }
      var params := OrganizeModelParameters(Dicts.AsMap(record), None, true);
      if params.Err? {
        return Err(params.error);
      }
      var sim := model(forcing.value.1, forcing.value.0, params.value);
      var results := OrganizeModelResults(filtered.value, sim.theta, forcing.value.1,
                                          if resultsFields.Some? then resultsFields.value else map[]);
      if results.Err? {
        return Err(results.error);
      }
      var scores := Scores(sim);
      var rec := OrganizeModelMetrics(scores, record, Some([("time", Stamp(time))]),
                                      if metricsFields.Some? then Some(metricsFields.value.Keys) else None);
      return Ok((results.value, rec));
    }

    /** One record of `exec`, changing the file system. */
    method ExecPoint(fs: FileSystem, record: Dicts.Dict<Field>) returns (r: Result<()>)
      requires Valid() && Dicts.Distinct(record)
      modifies fs
      ensures (fs.files, r) == ExecStep(old(fs.files), record)
    {
      var tag := PointTag(record);
      if tag.Err? {
        return Err(tag.error);
      }
      r := ExecTaggedPoint(fs, record, tag.value);
    }

    /** One point of `exec` once its tag is known, changing the file system. */
    method ExecTaggedPoint(fs: FileSystem, record: Dicts.Dict<Field>, tag: string) returns (r: Result<()>)
      requires Valid() && Dicts.Distinct(record)
      modifies fs
      ensures (fs.files, r) == ExecTagged(old(fs.files), record, tag)
    {
      ResetPoint(fs, tag);
      var data := DefineFileString(dataPath, time, PointInfo(info, tag), templates, fill);
      var res := DefineFileString(resultsPath, time, PointInfo(info, tag), templates, fill);
      var met := DefineFileString(metricsPath, time, PointInfo(info, tag), templates, fill);
      if res in fs.files || data !in fs.files {
        return Ok(());
      }
      var products := Compute(fs.files[data], record);
      if products.Err? {
        return Err(products.error);
      }
      r := DumpPoint(fs, res, met, products.value.0, products.value.1);
    }

    /** With either reset flag, the point's results, metrics and figure files removed. */
    method ResetPoint(fs: FileSystem, tag: string)
      requires Valid()
      modifies fs
      ensures fs.files == ExecPresent(old(fs.files), tag)
    {
      if resetResults || resetMetrics {
        var res := DefineFileString(resultsPath, time, PointInfo(info, tag), templates, fill);
        var met := DefineFileString(metricsPath, time, PointInfo(info, tag), templates, fill);
        var fig := DefineFileString(figurePath, time, PointInfo(info, tag), templates, fill);
        fs.RemoveIfExists(res);
        fs.RemoveIfExists(met);
        fs.RemoveIfExists(fig);
      }
    }

    /** The results then the metrics of one point written out. */
    method DumpPoint(fs: FileSystem, resultsAt: string, metricsAt: string, results: Frame, rec: Record)
      returns (r: Result<()>)
      requires Wf(results)
      modifies fs
      ensures (fs.files, r) == Dump(old(fs.files), resultsAt, metricsAt, results, rec)
    {
      if resultsFormat != "csv" {
        return Err(TypeError("Case not implemented yet"));
      }
      fs.Write(resultsAt, ResultsFile(results));
      if metricsFormat != "csv" {
        return Err(TypeError("Case not implemented yet"));
      }
      fs.Write(metricsAt, MetricsFile(rec));
      return Ok(());
    }

    /** `exec`. */
    method Exec(fs: FileSystem) returns (r: Result<()>)
      requires Valid()
      modifies fs
      ensures (fs.files, r) == ExecLoop(old(fs.files), Records(registry), 0)
    {
      var records := Records(registry);
      var i := 0;
      while i < |records|
        invariant 0 <= i <= |records|
        invariant ExecLoop(fs.files, records, i) == ExecLoop(old(fs.files), records, 0)
      {
        var step := ExecPoint(fs, records[i]);
        if step.Err? {
          return step;
        }
        i := i + 1;
      }
      return Ok(());
    }

    /** One record of `view`, changing the file system. */
    method ViewPoint(fs: FileSystem, record: Dicts.Dict<Field>) returns (r: Result<()>)
      requires Valid()
      modifies fs
      ensures (fs.files, r) == ViewStep(old(fs.files), record)
    {
      var tag := PointTag(record);
      if tag.Err? {
        return Err(tag.error);
      }
      var res := DefineFileString(resultsPath, time, PointInfo(info, tag.value), templates, fill);
      var met := DefineFileString(metricsPath, time, PointInfo(info, tag.value), templates, fill);
      var fig := DefineFileString(figurePath, time, PointInfo(info, tag.value), templates, fill);
      if resetFigure {
        fs.RemoveIfExists(figurePath);
      }
      if res in fs.files && met in fs.files {
        var results := GetDatasets(fs.files, res, "csv", Some(Dicts.AsMap(record)), time, codecs);
        if results.Err? {
          return Err(results.error);
        }
        var metrics := GetDatasets(fs.files, met, "csv", Some(Dicts.AsMap(record)), time, codecs);
        if metrics.Err? {
          return Err(metrics.error);
        }
        fs.Write(fig, codecs.plot(results.value, metrics.value));
      }
      return Ok(());
    }

    /** `view`. */
    method View(fs: FileSystem) returns (r: Result<()>)
      requires Valid()
      modifies fs
      ensures (fs.files, r) == ViewLoop(old(fs.files), Records(registry), 0)
    {
      var records := Records(registry);
      var i := 0;
      while i < |records|
        invariant 0 <= i <= |records|
        invariant ViewLoop(fs.files, records, i) == ViewLoop(old(fs.files), records, 0)
      {
        var step := ViewPoint(fs, records[i]);
        if step.Err? {
          return step;
        }
        i := i + 1;
      }
      return Ok(());
    }

    /** The metrics record has the six scores, the point's registry fields and `time`
        (restricted to the metrics fields when given), without repeats, and a key takes
        its value from `time`, else the registry, else the scores. */
    lemma MetricsOfSpec(sim: Simulation, record: Dicts.Dict<Field>)
      requires Dicts.Distinct(record)
      ensures var rec := MetricsOf(sim, record);
        var keys := {"ns", "ns_ln_q", "ns_rad_q", "kge", "rmse", "rq"} + Dicts.Keys(record) + {"time"};
        && rec.name == "info"
        && Dicts.Distinct(rec.entries)
        && Dicts.Keys(rec.entries) == (if metricsFields.Some? then keys * metricsFields.value.Keys else keys)
        && forall k | k in Dicts.Keys(rec.entries) ::
             Dicts.Get(rec.entries, k) == (if k == "time" then Stamp(time)
                                           else if k in Dicts.Keys(record) then Dicts.Get(record, k)
                                           else Dicts.Get(Scores(sim), k))
    {
      ScoredEntries(Scores(sim), record, Stamp(time), metricsFields);
    }

    /** With either reset flag, a point of `exec` does not see its earlier results,
        metrics or figure files. */
    lemma ExecReset(files: map<string, string>, record: Dicts.Dict<Field>, tag: string)
      requires Valid() && (resetResults || resetMetrics)
      ensures ExecTagged(files, record, tag) ==
        ExecTagged(files - {PathOf(resultsPath, tag)} - {PathOf(metricsPath, tag)} - {PathOf(figurePath, tag)}, record, tag)
    {
      var (res, met, fig) := (PathOf(resultsPath, tag), PathOf(metricsPath, tag), PathOf(figurePath, tag));
      var present := files - {res} - {met} - {fig};
      assert present - {res} - {met} - {fig} == present;
    }

    /** A point of `exec` whose results file exists after the reset step, or whose data
        file does not, writes nothing and raises nothing. */
    lemma ExecSkips(files: map<string, string>, record: Dicts.Dict<Field>, tag: string)
      requires Valid()
      requires PathOf(resultsPath, tag) in ExecPresent(files, tag) || PathOf(dataPath, tag) !in ExecPresent(files, tag)
      ensures ExecTagged(files, record, tag).0 == ExecPresent(files, tag)
      ensures ExecTagged(files, record, tag).1.Ok?
    {
    }

    /** The results and metrics files as `Dump` leaves them. */
    lemma DumpEffects(files: map<string, string>, resultsAt: string, metricsAt: string, results: Frame, rec: Record)
      requires Wf(results)
      ensures Dump(files, resultsAt, metricsAt, results, rec).1.Ok? <==> resultsFormat == "csv" && metricsFormat == "csv"
      ensures Dump(files, resultsAt, metricsAt, results, rec).1.Err? ==>
        Dump(files, resultsAt, metricsAt, results, rec).1.error.TypeError?
      ensures Dump(files, resultsAt, metricsAt, results, rec).0 ==
        if resultsFormat != "csv" then files
        else if metricsFormat != "csv" then files[resultsAt := ResultsFile(results)]
        else files[resultsAt := ResultsFile(results)][metricsAt := MetricsFile(rec)]
    {
    }

    /** A point of `exec` with no results file and a data file: an exception of the
        computation writes nothing; otherwise the results file is written, then the
        metrics file, each only in the csv format; a point that completes has written
        both. */
    lemma ExecComputes(files: map<string, string>, record: Dicts.Dict<Field>, tag: string)
      requires Valid()
      requires PathOf(resultsPath, tag) !in ExecPresent(files, tag) && PathOf(dataPath, tag) in ExecPresent(files, tag)
      ensures var present := ExecPresent(files, tag);
        var products := Products(present[PathOf(dataPath, tag)], record);
        && (products.Err? ==> ExecTagged(files, record, tag) == (present, Err(products.error)))
        && (products.Ok? ==>
              ExecTagged(files, record, tag) ==
              Dump(present, PathOf(resultsPath, tag), PathOf(metricsPath, tag), products.value.0, products.value.1))
        && (ExecTagged(files, record, tag).1.Ok? ==>
              && products.Ok?
              && ExecTagged(files, record, tag).0 ==
                 present[PathOf(resultsPath, tag) := ResultsFile(products.value.0)]
                        [PathOf(metricsPath, tag) := MetricsFile(products.value.1)])
    {
      var present := ExecPresent(files, tag);
      var products := Products(present[PathOf(dataPath, tag)], record);
      if products.Ok? {
        DumpEffects(present, PathOf(resultsPath, tag), PathOf(metricsPath, tag), products.value.0, products.value.1);
      }
    }

    /** A point of `view` draws its figure only when both its results and metrics files
        exist; with the figure reset, the file removed is the figure path template, so
        the point's own earlier figure stays when nothing is drawn. */
    lemma ViewEffects(files: map<string, string>, record: Dicts.Dict<Field>, tag: string)
      requires Valid()
      ensures var present := if resetFigure then files - {figurePath} else files;
        var (res, met, fig) := (PathOf(resultsPath, tag), PathOf(metricsPath, tag), PathOf(figurePath, tag));
        && (!(res in present && met in present) ==> ViewTagged(files, record, tag) == (present, Ok(())))
        && (ViewTagged(files, record, tag).1.Err? ==> ViewTagged(files, record, tag).0 == present)
        && (res in present && met in present && ViewTagged(files, record, tag).1.Ok? ==>
              && GetDatasets(present, res, "csv", Some(Dicts.AsMap(record)), time, codecs).Ok?
              && GetDatasets(present, met, "csv", Some(Dicts.AsMap(record)), time, codecs).Ok?
              && ViewTagged(files, record, tag).0 ==
                 present[fig := codecs.plot(GetDatasets(present, res, "csv", Some(Dicts.AsMap(record)), time, codecs).value,
                                            GetDatasets(present, met, "csv", Some(Dicts.AsMap(record)), time, codecs).value)])
    {
    }

    /** The figure reset as written: the point's figure survives it when nothing is drawn
        and the template does not name it. */
    lemma ViewResetKeepsFigure(files: map<string, string>, record: Dicts.Dict<Field>, tag: string)
      requires Valid() && resetFigure
      requires PathOf(figurePath, tag) != figurePath && PathOf(figurePath, tag) in files
      requires PathOf(resultsPath, tag) !in files
      ensures PathOf(figurePath, tag) in ViewTagged(files, record, tag).0
      ensures ViewTagged(files, record, tag).0[PathOf(figurePath, tag)] == files[PathOf(figurePath, tag)]
      ensures figurePath !in ViewTagged(files, record, tag).0
    {
    }
  }
}
