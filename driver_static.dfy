/** The static stage (sm_model/driver_data_static.py): the registry of points and the
    table of their model parameters are read, joined on `tag` and cached in one pickled
    destination file, which later runs reuse unless the reset flag is set. */
module DriverStatic {
  import opened Wrappers
  import opened Values
  import opened Frames
  import opened Files
  import opened Points
  import IoCsv
  import IoUtils
  import Dicts

  /** One source table: its path template (folder and file name already joined), format,
      separator, the field mapping `map_vars_dframe` applies, and the row filters. */
  datatype Source = Source(path: string, format: string, delimiter: string,
                           mapVars: Table -> Table, filters: Option<Dicts.Dict<Field>>)

  /** The field mapping keeps tables rectangular. */
  ghost predicate Shaped(src: Source) {
    forall t | WfTable(t) :: WfTable(src.mapVars(t))
  }

  /** The separators chosen in `__init__`, from the string entries of the registry and
      parameter settings. Both default to ';', but the test for the parameters' separator
      looks at the registry settings: with a registry separator the parameters must name
      theirs (KeyError otherwise), and without one the parameters' own is ignored. */
  function Delimiters(registry: map<string, string>, params: map<string, string>): (r: Result<(string, string)>)
    ensures r.Err? <==> "delimiter" in registry && "delimiter" !in params
    ensures r.Err? ==> r.error == KeyError("delimiter")
    ensures r.Ok? ==> r.value.0 == (if "delimiter" in registry then registry["delimiter"] else ";")
    ensures r.Ok? ==> r.value.1 == (if "delimiter" in registry then params["delimiter"] else ";")
  {
    var reg := if "delimiter" in registry then registry["delimiter"] else ";";
    if "delimiter" in registry then
      if "delimiter" in params then Ok((reg, params["delimiter"])) else Err(KeyError("delimiter"))
    else Ok((reg, ";"))
  }

  /** The parameters' separator is ignored when the registry settings have none. */
  lemma DelimiterLooksAtRegistry()
    ensures Delimiters(map[], map["delimiter" := ","]) == Ok((";", ";"))
  {
  }

  /** `get_obj_registry`: a missing file is an IOError and a format other than csv a
      TypeError (`raise NotImplemented(...)`); otherwise the registry reader runs on the
      file parsed with the registry separator. */
  function GetObjRegistry(files: map<string, string>, path: string, src: Source, codecs: Codecs,
                          sanitize: Field -> string, repr: Field -> string): (r: Result<Table>)
    requires Sound(codecs) && Shaped(src)
    ensures path !in files ==> r.Err? && r.error.IOError?
    ensures path in files && src.format != "csv" ==> r.Err? && r.error.TypeError?
    ensures path in files && src.format == "csv" ==>
      r == IoCsv.ReadTable(codecs.parse(files[path], src.delimiter), src.mapVars, sanitize, repr, src.filters)
  {
    if path !in files then Err(IOError("File parameters must be available"))
    else if src.format == "csv" then
      var raw := codecs.parse(files[path], src.delimiter);
      IoCsv.ReadTable(raw, src.mapVars, sanitize, repr, src.filters)
    else Err(TypeError("Case not implemented yet"))
  }

  /** `get_obj_parameters`: as the registry getter, except that the ascii format, no
      longer supported, is refused too (TypeError). */
  function GetObjParameters(files: map<string, string>, path: string, src: Source, codecs: Codecs,
                            sanitize: Field -> string, repr: Field -> string): (r: Result<Table>)
    requires Sound(codecs) && Shaped(src)
    ensures path !in files ==> r.Err? && r.error.IOError?
    ensures path in files && src.format != "csv" ==> r.Err? && r.error.TypeError?
    ensures path in files && src.format == "csv" ==>
      r == IoCsv.ReadTable(codecs.parse(files[path], src.delimiter), src.mapVars, sanitize, repr, src.filters)
  {
    if path !in files then Err(IOError("File parameters must be available"))
    else if src.format == "ascii" then Err(TypeError("Case not longer supported by the library"))
    else if src.format == "csv" then
      var raw := codecs.parse(files[path], src.delimiter);
      IoCsv.ReadTable(raw, src.mapVars, sanitize, repr, src.filters)
    else Err(TypeError("Case not implemented yet"))
  }

  /** The static driver: run settings, the two sources and the destination are fixed by
      the constructor; what changes is the file system it is given. */
  class DriverData {
    const time: Time
    const info: map<string, Field>
    const templates: Templates
    const fill: IoUtils.Filler
    const registry: Source
    const parameters: Source
    const destination: string
    const reset: bool
    const codecs: Codecs
    const sanitize: Field -> string
    const repr: Field -> string
    const join: (Table, Table) -> Table

    /** `__init__`, with the separators already chosen by `Delimiters`. */
    constructor (time: Time, info: map<string, Field>, templates: Templates, fill: IoUtils.Filler,
                 registry: Source, parameters: Source, destination: string, reset: bool,
                 codecs: Codecs, sanitize: Field -> string, repr: Field -> string, join: (Table, Table) -> Table)
      ensures this.time == time && this.info == info && this.templates == templates && this.fill == fill
      ensures this.registry == registry && this.parameters == parameters
      ensures this.destination == destination && this.reset == reset
      ensures this.codecs == codecs && this.sanitize == sanitize && this.repr == repr && this.join == join
    {
      this.time := time;
      this.info := info;
      this.templates := templates;
      this.fill := fill;
      this.registry := registry;
      this.parameters := parameters;
      this.destination := destination;
      this.reset := reset;
      this.codecs := codecs;
      this.sanitize := sanitize;
      this.repr := repr;
      this.join := join;
    }

    ghost predicate Valid() {
      Sound(codecs) && Shaped(registry) && Shaped(parameters)
    }

    function Expand(tmpl: string): string {
      FileString(tmpl, time, info, templates, fill)
    }

    /** `organize_data` on a file map: the files afterwards and the collection returned
        (or the exception raised). With the reset flag the destination goes first; an
        absent destination is built from the two sources, joined on `tag`, and pickled;
        a present one is unpickled and returned. */
    function Organize(files: map<string, string>): (map<string, string>, Result<map<string, Table>>)
      requires Valid()
    {
      var dst := Expand(destination);
      var present := if reset then files - {dst} else files;
      if dst !in present then
        match GetObjRegistry(present, Expand(registry.path), registry, codecs, sanitize, repr)
        case Err(e) => (present, Err(e))
        case Ok(reg) =>
          match GetObjParameters(present, Expand(parameters.path), parameters, codecs, sanitize, repr)
          case Err(e) => (present, Err(e))
          case Ok(params) =>
            var collections := map["registry" := join(reg, params)];
            (present[dst := codecs.pickle(collections)], Ok(collections))
      else
        match codecs.unpickle(present[dst])
        case None => (present, Err(UnpicklingError(dst)))
        case Some(collections) => (present, Ok(collections))
    }

    /** `organize_data`. */
    method OrganizeData(fs: FileSystem) returns (r: Result<map<string, Table>>)
      requires Valid()
      modifies fs
      ensures (fs.files, r) == Organize(old(fs.files))
    {
      var registryPath := DefineFileString(registry.path, time, info, templates, fill);
      var paramsPath := DefineFileString(parameters.path, time, info, templates, fill);
      var dst := DefineFileString(destination, time, info, templates, fill);
      if reset {
        fs.RemoveIfExists(dst);
      }
      if dst !in fs.files {
        var reg := GetObjRegistry(fs.files, registryPath, registry, codecs, sanitize, repr);
        if reg.Err? {
          return Err(reg.error);
        }
        var params := GetObjParameters(fs.files, paramsPath, parameters, codecs, sanitize, repr);
        if params.Err? {
          return Err(params.error);
        }
        var collections := map["registry" := join(reg.value, params.value)];
        fs.Write(dst, codecs.pickle(collections));
        return Ok(collections);
      }
      var stored := codecs.unpickle(fs.files[dst]);
      if stored.None? {
        return Err(UnpicklingError(dst));
      }
      return Ok(stored.value);
    }

    /** With the reset flag, the run does not see an earlier destination. */
    lemma ResetIgnoresCache(files: map<string, string>)
      requires Valid() && reset
      ensures Organize(files) == Organize(files - {Expand(destination)})
    {
      var dst := Expand(destination);
      assert files - {dst} - {dst} == files - {dst};
    }

    /** Without a destination (or with the reset flag), a successful run pickles the join
        of the registry and the parameters under `registry` into the destination, and
        changes no other file. */
    lemma BuildsDestination(files: map<string, string>)
      requires Valid()
      requires reset || Expand(destination) !in files
      ensures var (after, r) := Organize(files);
        var dst := Expand(destination);
        var present := files - {dst};
        && (r.Ok? ==>
              && r.value.Keys == {"registry"}
              && GetObjRegistry(present, Expand(registry.path), registry, codecs, sanitize, repr).Ok?
              && GetObjParameters(present, Expand(parameters.path), parameters, codecs, sanitize, repr).Ok?
              && r.value["registry"] == join(GetObjRegistry(present, Expand(registry.path), registry, codecs, sanitize, repr).value,
                                             GetObjParameters(present, Expand(parameters.path), parameters, codecs, sanitize, repr).value)
              && after == present[dst := codecs.pickle(r.value)])
        && (r.Err? ==> after == present)
    {
      var dst := Expand(destination);
      if !reset {
        assert files - {dst} == files;
      }
    }

    /** With the destination present and no reset, nothing is written and the result
        depends on the destination alone: no source file is read. */
    lemma ReusesDestination(files: map<string, string>, other: map<string, string>)
      requires Valid() && !reset
      requires Expand(destination) in files && Expand(destination) in other
      requires files[Expand(destination)] == other[Expand(destination)]
      ensures Organize(files).0 == files
      ensures Organize(files).1 == Organize(other).1
    {
    }
  }

  /** `__init__`: the separators are chosen first, which may raise. */
  method NewDriverData(time: Time, info: map<string, Field>, templates: Templates, fill: IoUtils.Filler,
                       registry: Source, parameters: Source,
                       registrySettings: map<string, string>, paramsSettings: map<string, string>,
                       destination: string, reset: bool,
                       codecs: Codecs, sanitize: Field -> string, repr: Field -> string, join: (Table, Table) -> Table)
    returns (r: Result<DriverData>)
    ensures Delimiters(registrySettings, paramsSettings).Err? ==> r == Err(Delimiters(registrySettings, paramsSettings).error)
    ensures r.Ok? <==> Delimiters(registrySettings, paramsSettings).Ok?
    ensures r.Ok? ==> fresh(r.value)
    ensures r.Ok? ==>
      && (r.value.registry.delimiter, r.value.parameters.delimiter) == Delimiters(registrySettings, paramsSettings).value
      && r.value.registry == registry.(delimiter := r.value.registry.delimiter)
      && r.value.parameters == parameters.(delimiter := r.value.parameters.delimiter)
      && r.value.destination == destination && r.value.reset == reset
  {
    var delimiters := Delimiters(registrySettings, paramsSettings);
    if delimiters.Err? {
      return Err(delimiters.error);
    }
    var d := new DriverData(time, info, templates, fill,
                            registry.(delimiter := delimiters.value.0), parameters.(delimiter := delimiters.value.1),
                            destination, reset, codecs, sanitize, repr, join);
    return Ok(d);
  }
}
