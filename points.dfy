/** What the per-point drivers share: the registry rows as records, a point's tag, and the
    expansion of a path template for one point (`__define_file_string`). */
module Points {
  import opened Wrappers
  import opened Values
  import opened Frames
  import opened IoUtils
  import Dicts

  /** `table.to_dict(orient="records")`: one dictionary per row, keyed by column name. */
  function Records(t: Table): (r: seq<Dicts.Dict<Field>>)
    requires WfTable(t)
    ensures |r| == |t.rows|
    ensures forall i | 0 <= i < |t.rows| :: r[i] == Dicts.Zip(t.columns, t.rows[i]) && Dicts.Distinct(r[i])
  {
    var r := seq(|t.rows|, i requires 0 <= i < |t.rows| => Dicts.Zip(t.columns, t.rows[i]));
    forall i | 0 <= i < |t.rows| ensures Dicts.Distinct(r[i]) {
      Dicts.ZipDistinct(t.columns, t.rows[i]);
    }
    r
  }

  /** The point's tag: `record['name']` and `record['tag']` are read (KeyError when absent),
      and the tag is concatenated into a log line, so a tag that is not a string is a
      TypeError. */
  function PointTag(record: Dicts.Dict<Field>): (r: Result<string>)
    ensures r.Ok? <==> "name" in Dicts.Keys(record) && "tag" in Dicts.Keys(record) && Dicts.Get(record, "tag").Text?
    ensures r.Ok? ==> Dicts.Get(record, "tag") == Text(r.value)
    ensures "name" !in Dicts.Keys(record) ==> r == Err(KeyError("name"))
    ensures "name" in Dicts.Keys(record) && "tag" !in Dicts.Keys(record) ==> r == Err(KeyError("tag"))
  {
    if "name" !in Dicts.Keys(record) then Err(KeyError("name"))
    else if "tag" !in Dicts.Keys(record) then Err(KeyError("tag"))
    else match Dicts.Get(record, "tag")
      case Text(s) => Ok(s)
      case _ => Err(TypeError("can only concatenate str to str"))
  }

  /** The dictionaries of template tags: those filled with the time and those filled with
      the run information. */
  datatype Templates = Templates(time: map<string, string>, datasets: map<string, string>)

  /** `{**info, **{'point_name': tag}}`. */
  function PointInfo(info: map<string, Field>, tag: string): (r: map<string, Field>)
    ensures r.Keys == info.Keys + {"point_name"} && r["point_name"] == Text(tag)
    ensures forall k | k in info && k != "point_name" :: r[k] == info[k]
  {
    info["point_name" := Text(tag)]
  }

  /** A template filled first with the time, then with the information it names. */
  function FileString(tmpl: string, time: Time, info: map<string, Field>, t: Templates, fill: Filler): string {
    fill(fill(tmpl, t.time, map k | k in t.time :: Stamp(time)), t.datasets, map k | k in t.datasets && k in info :: info[k])
  }

  /** `__define_file_string`: `fill_string_with_time`, then `fill_string_with_info`. */
  method DefineFileString(tmpl: string, time: Time, info: map<string, Field>, t: Templates, fill: Filler)
    returns (s: string)
    ensures s == FileString(tmpl, time, info, t, fill)
  {
    var timed := FillStringWithTime(tmpl, time, t.time, fill);
    var r := FillStringWithInfo(timed, Some(info), t.datasets, fill);
    s := r.value;
  }

  /** For one point, the run information hands the filler the point's tag under
      `point_name`, and every other tag its run value. */
  lemma PointPathValues(info: map<string, Field>, tag: string, t: Templates)
    ensures var values := map k | k in t.datasets && k in PointInfo(info, tag) :: PointInfo(info, tag)[k];
      && ("point_name" in t.datasets ==> "point_name" in values && values["point_name"] == Text(tag))
      && forall k | k in t.datasets && k in info && k != "point_name" :: k in values && values[k] == info[k]
  {
  }
}
