/** The dynamic stage (sm_model/driver_data_dynamic.py): for every point of the registry,
    its rain, air-temperature and soil-moisture series are read, combined onto one grid
    and written to the point's destination file, unless that file is already there. */
module DriverDynamic {
  import opened Wrappers
  import opened Values
  import opened Frames
  import opened Files
  import opened Points
  import opened IoCsv
  import IoGeneric
  import IoUtils
  import Dicts

  /** One series source: its path template (folder and file name joined), format,
      separator, the inverted field map and the time keyword arguments of the reader. */
  datatype Source = Source(path: string, format: string, delimiter: string,
                           inverse: map<string, string>, window: ReadSettings)

  /** The destination: path template, format, and the field map applied when writing. */
  datatype Destination = Destination(path: string, format: string, fields: Option<map<string, string>>)

  predicate Usable(src: Source) {
    src.window.rounding > 0 && src.window.frequency > 0
  }

  /** `get_obj_datasets`: a missing file is an IOError when the file is mandatory and no
      frame (None) otherwise; a format other than csv is a TypeError; a csv file is read by
      `read_datasets_csv` with the run's reference time. */
  function GetDatasets(files: map<string, string>, path: string, src: Source, mandatory: bool,
                       reference: Time, codecs: Codecs): (r: Result<Option<Frame>>)
    requires Sound(codecs) && Usable(src)
    ensures path !in files && mandatory ==> r.Err? && r.error.IOError?
    ensures path !in files && !mandatory ==> r == Ok(None)
    ensures path in files && src.format != "csv" ==> r.Err? && r.error.TypeError?
    ensures path in files && src.format == "csv" ==>
      var read := ReadDatasets(codecs.parse(files[path], src.delimiter), src.inverse, None,
                               Stamp(reference), src.window, codecs.parseTime);
      && (read.Err? ==> r == Err(read.error))
      && (read.Ok? ==> r == Ok(Some(read.value)))
    ensures r.Ok? && r.value.Some? ==> Wf(r.value.value)
  {
    if path !in files then
      if mandatory then Err(IOError("File parameters must be available")) else Ok(None)
    else if src.format == "csv" then
      var f :- ReadDatasets(codecs.parse(files[path], src.delimiter), src.inverse, None,
                            Stamp(reference), src.window, codecs.parseTime);
      Ok(Some(f))
    else Err(TypeError("Case not implemented yet"))
  }

  /** Setting a path and then removing it is removing it. */
  lemma UpdateMinus(files: map<string, string>, path: string, content: string)
    ensures files[path := content] - {path} == files - {path}
  {
  }

  /** The dynamic driver; the file system is what changes. */
  class DriverData {
    const time: Time
    const info: map<string, Field>
    const templates: Templates
    const fill: IoUtils.Filler
    const registry: Table
    const rain: Source
    const airTemperature: Source
    const soilMoisture: Source
    const destination: Destination
    const reset: bool
    const codecs: Codecs

    /** `__init__`. */
    constructor (time: Time, info: map<string, Field>, templates: Templates, fill: IoUtils.Filler,
                 registry: Table, rain: Source, airTemperature: Source, soilMoisture: Source,
                 destination: Destination, reset: bool, codecs: Codecs)
      ensures this.time == time && this.info == info && this.templates == templates && this.fill == fill
      ensures this.registry == registry && this.rain == rain && this.airTemperature == airTemperature
      ensures this.soilMoisture == soilMoisture && this.destination == destination
      ensures this.reset == reset && this.codecs == codecs
    {
      this.time := time;
      this.info := info;
      this.templates := templates;
      this.fill := fill;
      this.registry := registry;
      this.rain := rain;
      this.airTemperature := airTemperature;
      this.soilMoisture := soilMoisture;
      this.destination := destination;
      this.reset := reset;
      this.codecs := codecs;
    }

    ghost predicate Valid() {
      WfTable(registry) && Sound(codecs) && Usable(rain) && Usable(airTemperature) && Usable(soilMoisture)
    }

    /** A path template expanded for one point (`point_name` = the point's tag). */
    function PathOf(tmpl: string, tag: string): string {
      FileString(tmpl, time, PointInfo(info, tag), templates, fill)
    }

    /** The combined frame of one point: rain and air temperature are mandatory, soil
        moisture is optional, and a missing optional series yields no frame. */
    function Combination(files: map<string, string>, tag: string): (r: Result<Option<Frame>>)
      requires Valid()
      ensures PathOf(rain.path, tag) !in files ==> r.Err? && r.error.IOError?
      ensures (GetDatasets(files, PathOf(rain.path, tag), rain, true, time, codecs).Ok?
               && PathOf(airTemperature.path, tag) !in files) ==> r.Err? && r.error.IOError?
      ensures (GetDatasets(files, PathOf(rain.path, tag), rain, true, time, codecs).Ok?
               && GetDatasets(files, PathOf(airTemperature.path, tag), airTemperature, true, time, codecs).Ok?
               && PathOf(soilMoisture.path, tag) !in files) ==> r == Ok(None)
      ensures r.Ok? && r.value.Some? ==> Wf(r.value.value)
      ensures var g1 := GetDatasets(files, PathOf(rain.path, tag), rain, true, time, codecs);
        var g2 := GetDatasets(files, PathOf(airTemperature.path, tag), airTemperature, true, time, codecs);
        var g3 := GetDatasets(files, PathOf(soilMoisture.path, tag), soilMoisture, false, time, codecs);
        && (g1.Err? ==> r == Err(g1.error))
        && (g1.Ok? && g2.Err? ==> r == Err(g2.error))
        && (g1.Ok? && g2.Ok? && g3.Err? ==> r == Err(g3.error))
        && (g1.Ok? && g2.Ok? && g3.Ok? ==> r == IoGeneric.Combine(g1.value, g2.value, g3.value, IoGeneric.DefaultSettings))
    {
      var k1 :- GetDatasets(files, PathOf(rain.path, tag), rain, true, time, codecs);
      var k2 :- GetDatasets(files, PathOf(airTemperature.path, tag), airTemperature, true, time, codecs);
      var k3 :- GetDatasets(files, PathOf(soilMoisture.path, tag), soilMoisture, false, time, codecs);
      IoGeneric.Combine(k1, k2, k3, IoGeneric.DefaultSettings)
    }

    /** The file written for a combined frame: `write_datasets_csv` with its defaults (the
        `dframe_*` arguments of `dump_obj_datasets` are not among its parameters). */
    function Written(c: Frame): string
      requires Wf(c)
    {
      codecs.render(WriteDatasets(c, destination.fields, codecs.stamp, DefaultWrite), ",")
    }

    /** One point of `organize_data`: the files afterwards, and the destination path to
        record (None when the point is skipped for lack of data). */
    function Step(files: map<string, string>, tag: string): (map<string, string>, Result<Option<string>>)
      requires Valid()
    {
      var dst := PathOf(destination.path, tag);
      var present := if reset then files - {dst} else files;
      if dst in present then (present, Ok(Some(dst)))
      else
        Outcome(present, dst, Combination(present, tag))
    }

    /** What a computed point leaves: the combined frame written to the destination (only
        in csv), or nothing written. */
    function Outcome(present: map<string, string>, dst: string, combined: Result<Option<Frame>>)
      : (map<string, string>, Result<Option<string>>)
      requires combined.Ok? && combined.value.Some? ==> Wf(combined.value.value)
    {
      match combined
      case Err(e) => (present, Err(e))
      case Ok(None) => (present, Ok(None))
      case Ok(Some(c)) =>
        if destination.format != "csv" then (present, Err(TypeError("Case not implemented yet")))
        else (present[dst := Written(c)], Ok(Some(dst)))
    }

    /** The registry records from position `i` on, processed from `files` with the
        collection `acc` recorded so far: the files afterwards, and the whole collection
        (or the exception that ended the loop, leaving the later records unprocessed). */
    function Loop(files: map<string, string>, acc: Dicts.Dict<string>, records: seq<Dicts.Dict<Field>>, i: nat)
      : (map<string, string>, Result<Dicts.Dict<string>>)
      requires Valid() && i <= |records|
      decreases |records| - i
    {
      if i == |records| then (files, Ok(acc))
      else
        var next := Advance(files, acc, records[i]);
        if next.1.Err? then next
        else Loop(next.0, next.1.value, records, i + 1)
    }

    /** One more record: its tag is read (which may raise), the point processed, and its
        destination recorded under its tag when there is one. */
    function Advance(files: map<string, string>, acc: Dicts.Dict<string>, record: Dicts.Dict<Field>)
      : (map<string, string>, Result<Dicts.Dict<string>>)
      requires Valid()
    {
      match PointTag(record)
      case Err(e) => (files, Err(e))
      case Ok(tag) =>
        var step := Step(files, tag);
        match step.1
        case Err(e) => (step.0, Err(e))
        case Ok(None) => (step.0, Ok(acc))
        case Ok(Some(path)) => (step.0, Ok(Dicts.Put(acc, tag, path)))
    }

    /** `organize_data`: every record processed, and an empty collection returned as None. */
    function Organize(files: map<string, string>): (map<string, string>, Result<Option<Dicts.Dict<string>>>)
      requires Valid()
    {
      var run := Loop(files, [], Records(registry), 0);
      (run.0, match run.1
              case Err(e) => Err(e)
              case Ok(d) => Ok(if d == [] then None else Some(d)))
    }

    /** One point, changing the file system as `organize_data` does. */
    method ProcessPoint(fs: FileSystem, tag: string) returns (r: Result<Option<string>>)
      requires Valid()
      modifies fs
      ensures (fs.files, r) == Step(old(fs.files), tag)
    {
      var dst := DefineFileString(destination.path, time, PointInfo(info, tag), templates, fill);
      if reset {
        fs.RemoveIfExists(dst);
      }
      if dst in fs.files {
        return Ok(Some(dst));
      }
      r := ComputePoint(fs, tag, dst);
    }

    /** A point whose destination is not there: its sources read and combined, and the
        combined frame written to the destination. */
    method ComputePoint(fs: FileSystem, tag: string, dst: string) returns (r: Result<Option<string>>)
      requires Valid()
      modifies fs
      ensures (fs.files, r) == Outcome(old(fs.files), dst, Combination(old(fs.files), tag))
    {
      var rainPath := DefineFileString(rain.path, time, PointInfo(info, tag), templates, fill);
      var airPath := DefineFileString(airTemperature.path, time, PointInfo(info, tag), templates, fill);
      var soilPath := DefineFileString(soilMoisture.path, time, PointInfo(info, tag), templates, fill);
      var k1 := GetDatasets(fs.files, rainPath, rain, true, time, codecs);
      if k1.Err? {
        return Err(k1.error);
      }
      var k2 := GetDatasets(fs.files, airPath, airTemperature, true, time, codecs);
      if k2.Err? {
        return Err(k2.error);
      }
      var k3 := GetDatasets(fs.files, soilPath, soilMoisture, false, time, codecs);
      if k3.Err? {
        return Err(k3.error);
      }
      var combined := IoGeneric.CombineDataPointByTime(k1.value, k2.value, k3.value, IoGeneric.DefaultSettings);
      assert combined == Combination(fs.files, tag);
      if combined.Err? {
        return Err(combined.error);
      }
      if combined.value.None? {
        return Ok(None);
      }
      if destination.format != "csv" {
        return Err(TypeError("Case not implemented yet"));
      }
      fs.Write(dst, Written(combined.value.value));
      return Ok(Some(dst));
    }

    /** `organize_data`. */
    method OrganizeData(fs: FileSystem) returns (r: Result<Option<Dicts.Dict<string>>>)
      requires Valid()
      modifies fs
      ensures (fs.files, r) == Organize(old(fs.files))
    {
      var records := Records(registry);
      var collections: Dicts.Dict<string> := [];
      var i := 0;
      while i < |records|
        invariant 0 <= i <= |records|
        invariant Loop(fs.files, collections, records, i) == Loop(old(fs.files), [], records, 0)
      {
        var tag := PointTag(records[i]);
        if tag.Err? {
          return Err(tag.error);
        }
        var step := ProcessPoint(fs, tag.value);
        if step.Err? {
          return Err(step.error);
        }
        if step.value.Some? {
          collections := Dicts.Put(collections, tag.value, step.value.value);
        }
        i := i + 1;
      }
      if collections == [] {
        return Ok(None);
      }
      return Ok(Some(collections));
    }

    /** With the reset flag, a point does not see its earlier destination file. */
    lemma ResetRecomputes(files: map<string, string>, tag: string)
      requires Valid() && reset
      ensures Step(files, tag) == Step(files - {PathOf(destination.path, tag)}, tag)
    {
      var dst := PathOf(destination.path, tag);
      assert files - {dst} - {dst} == files - {dst};
    }

    /** An existing destination, without reset, is recorded as it is: no file changes. */
    lemma CachedPoint(files: map<string, string>, tag: string)
      requires Valid() && !reset && PathOf(destination.path, tag) in files
      ensures Step(files, tag) == (files, Ok(Some(PathOf(destination.path, tag))))
    {
    }

    /** A point changes its destination file and no other. */
    lemma StepFrame(files: map<string, string>, tag: string)
      requires Valid()
      ensures Step(files, tag).0 - {PathOf(destination.path, tag)} == files - {PathOf(destination.path, tag)}
    {
      var dst := PathOf(destination.path, tag);
      var present := if reset then files - {dst} else files;
      assert present - {dst} == files - {dst};
      if dst !in present {
        var combined := Combination(present, tag);
        assert Step(files, tag) == Outcome(present, dst, combined);
        if combined.Ok? && combined.value.Some? && destination.format == "csv" {
          UpdateMinus(present, dst, Written(combined.value.value));
        }
      }
    }

    /** A recorded point's destination exists afterwards; a point without a combined
        frame writes nothing and records nothing; a computed point holds the combined
        frame as written. */
    lemma StepEffects(files: map<string, string>, tag: string)
      requires Valid()
      ensures var dst := PathOf(destination.path, tag);
        var present := if reset then files - {dst} else files;
        && (Step(files, tag).1.Ok? && Step(files, tag).1.value.Some? ==>
              Step(files, tag).1.value.value == dst && dst in Step(files, tag).0)
        && (Step(files, tag).1 == Ok(None) ==>
              Step(files, tag).0 == present && Combination(present, tag) == Ok(None))
        && (Step(files, tag).1.Err? ==> Step(files, tag).0 == present)
        && (dst !in present && Step(files, tag).1.Ok? && Step(files, tag).1.value.Some? ==>
              && Combination(present, tag).Ok? && Combination(present, tag).value.Some?
              && Step(files, tag).0 == present[dst := Written(Combination(present, tag).value.value)])
    {
      var dst := PathOf(destination.path, tag);
      var present := if reset then files - {dst} else files;
      if dst !in present {
        assert Step(files, tag) == Outcome(present, dst, Combination(present, tag));
        OutcomeEffects(present, dst, Combination(present, tag));
      }
    }

    lemma OutcomeEffects(present: map<string, string>, dst: string, combined: Result<Option<Frame>>)
      requires combined.Ok? && combined.value.Some? ==> Wf(combined.value.value)
      ensures Outcome(present, dst, combined).1.Err? ==> Outcome(present, dst, combined).0 == present
      ensures Outcome(present, dst, combined).1 == Ok(None) ==>
        Outcome(present, dst, combined).0 == present && combined == Ok(None)
      ensures Outcome(present, dst, combined).1.Ok? && Outcome(present, dst, combined).1.value.Some? ==>
        && Outcome(present, dst, combined).1.value.value == dst
        && combined.Ok? && combined.value.Some?
        && Outcome(present, dst, combined).0 == present[dst := Written(combined.value.value)]
    {
    }

    /** A point computed once is cached the next time (without reset). */
    lemma StepTwice(files: map<string, string>, tag: string)
      requires Valid() && !reset
      requires Step(files, tag).1.Ok? && Step(files, tag).1.value.Some?
      ensures Step(Step(files, tag).0, tag) == Step(files, tag)
    {
      StepEffects(files, tag);
      StepFrame(files, tag);
    }

    /** The tags of the first `n` records that have one. */
    function Tags(records: seq<Dicts.Dict<Field>>, n: nat): set<string>
      requires n <= |records|
    {
      set i | 0 <= i < n && PointTag(records[i]).Ok? :: PointTag(records[i]).value
    }

    /** Every recorded tag maps to its own destination path, which exists. */
    ghost predicate Recorded(files: map<string, string>, acc: Dicts.Dict<string>) {
      && Dicts.Distinct(acc)
      && forall k | k in Dicts.Keys(acc) ::
           Dicts.Get(acc, k) == PathOf(destination.path, k) && PathOf(destination.path, k) in files
    }

    /** Without reset, one more record adds files only, keeps the recorded destinations,
        and records at most the record's own tag. */
    lemma AdvanceRecords(files: map<string, string>, acc: Dicts.Dict<string>, record: Dicts.Dict<Field>)
      requires Valid() && !reset && Recorded(files, acc)
      ensures files.Keys <= Advance(files, acc, record).0.Keys
      ensures Advance(files, acc, record).1.Ok? ==>
        && PointTag(record).Ok?
        && Recorded(Advance(files, acc, record).0, Advance(files, acc, record).1.value)
        && Dicts.Keys(Advance(files, acc, record).1.value) <= Dicts.Keys(acc) + {PointTag(record).value}
    {
      if PointTag(record).Ok? {
        var tag := PointTag(record).value;
        var dst := PathOf(destination.path, tag);
        var step := Step(files, tag);
        StepEffects(files, tag);
        StepFrame(files, tag);
        assert files.Keys <= step.0.Keys by {
          if dst in files {
            CachedPoint(files, tag);
          }
        }
        if step.1.Ok? && step.1.value.Some? {
          Dicts.PutKeys(acc, tag, dst);
          var acc' := Dicts.Put(acc, tag, dst);
          forall k | k in Dicts.Keys(acc')
            ensures Dicts.Get(acc', k) == PathOf(destination.path, k) && PathOf(destination.path, k) in step.0
          {
            if k != tag {
              assert PathOf(destination.path, k) in files;
            }
          }
        }
      }
    }

    /** Without reset, the rest of the loop only adds files, and, starting from recorded
        destinations, every recorded tag maps to its own destination path, which exists,
        and is the tag of one of the records. */
    lemma {:induction false} LoopRecords(files: map<string, string>, acc: Dicts.Dict<string>,
                                         records: seq<Dicts.Dict<Field>>, i: nat)
      requires Valid() && !reset && i <= |records|
      requires Recorded(files, acc) && Dicts.Keys(acc) <= Tags(records, i)
      ensures files.Keys <= Loop(files, acc, records, i).0.Keys
      ensures Loop(files, acc, records, i).1.Ok? ==>
        Recorded(Loop(files, acc, records, i).0, Loop(files, acc, records, i).1.value)
        && Dicts.Keys(Loop(files, acc, records, i).1.value) <= Tags(records, |records|)
      decreases |records| - i
    {
      if i < |records| {
        var next := Advance(files, acc, records[i]);
        AdvanceRecords(files, acc, records[i]);
        assert Tags(records, i) <= Tags(records, i + 1);
        if next.1.Ok? {
          assert PointTag(records[i]).value in Tags(records, i + 1);
          LoopRecords(next.0, next.1.value, records, i + 1);
        }
      }
    }

    /** `organize_data` returns None exactly when no point was recorded. */
    lemma OrganizeNone(files: map<string, string>)
      requires Valid()
      ensures var records := Records(registry);
        (Organize(files).1 == Ok(None)) <==> (Loop(files, [], records, 0).1 == Ok([]))
    {
    }
  }
}
