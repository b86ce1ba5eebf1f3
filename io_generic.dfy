/** The series combiner of the dynamic stage (sm_model/lib_data_io_generic.py): the rain,
    air-temperature and soil-moisture series of one point are rescaled, keeping the
    no-data value, and left-joined onto one hourly grid that covers all three. */
module IoGeneric {
  import opened Wrappers
  import opened Values
  import opened Frames
  import opened TimeUtils

  /** The keyword arguments of `combine_data_point_by_time`; the three no-data values and
      scale factors are those of the rain, air-temperature and soil-moisture series. */
  datatype CombineSettings = CombineSettings(
    timeTag: string, frequency: int, reverse: bool,
    noData: (real, real, real), scale: (real, real, real))

  /** The defaults: an hourly grid, newest first, no-data -9999 everywhere, and soil
      moisture scaled from percent to a fraction. */
  const DefaultSettings := CombineSettings("time", Hour, true, (NoData, NoData, NoData), (1.0, 1.0, 0.01))

  // ---------------------------------------------------------------------------------
  // Rescaling one series

  /** The multiplication: NaN stays NaN. */
  function Multiply(c: Field, factor: real): Field {
    match AsReal(c)
    case None => Null
    case Some(x) => Num(x * factor)
  }

  /** Last masked assignment: NaN becomes the no-data value. */
  function Remark(c: Field, noData: real): Field {
    if c.Null? then Num(noData) else c
  }

  /** The three steps together: the no-data value and missing cells end up as the no-data
      value, and every other value is multiplied by the factor. Only numeric columns get
      here: `Prepared` raises for a column holding text or timestamps. */
  function ScaleCell(c: Field, noData: real, factor: real): (r: Field)
    ensures AsReal(c).None? || AsReal(c) == Some(noData) ==> r == Num(noData)
    ensures AsReal(c).Some? && AsReal(c).value != noData ==> r == Num(AsReal(c).value * factor)
  {
    Remark(Multiply(Unmark(c, noData), factor), noData)
  }

  function Scaled(values: seq<Field>, noData: real, factor: real): (r: seq<Field>)
    ensures |r| == |values| && forall k | 0 <= k < |values| :: r[k] == ScaleCell(values[k], noData, factor)
  {
    seq(|values|, k requires 0 <= k < |values| => ScaleCell(values[k], noData, factor))
  }

  /** The three masked assignments on a value column, in place. */
  method Rescale(a: array<Field>, noData: real, factor: real)
    modifies a
    ensures forall k | 0 <= k < a.Length :: a[k] == ScaleCell(old(a[k]), noData, factor)
  {
    for k := 0 to a.Length
      invariant forall j | 0 <= j < k :: a[j] == Unmark(old(a[j]), noData)
      invariant forall j | k <= j < a.Length :: a[j] == old(a[j])
    {
      if IsNoData(a[k], noData) {
        a[k] := Null;
      }
    }
    for k := 0 to a.Length
      invariant forall j | 0 <= j < k :: a[j] == Multiply(Unmark(old(a[j]), noData), factor)
      invariant forall j | k <= j < a.Length :: a[j] == Unmark(old(a[j]), noData)
    {
      a[k] := Multiply(a[k], factor);
    }
    for k := 0 to a.Length
      invariant forall j | 0 <= j < k :: a[j] == ScaleCell(old(a[j]), noData, factor)
      invariant forall j | k <= j < a.Length :: a[j] == Multiply(Unmark(old(a[j]), noData), factor)
    {
      if a[k].Null? {
        a[k] := Num(noData);
      }
    }
  }

  /** A column numpy holds as numbers: every cell is a number or NaN. */
  predicate Numeric(values: seq<Field>) {
    forall k | 0 <= k < |values| :: values[k].Null? || AsReal(values[k]).Some?
  }

  /** One source after its preparation: the time column dropped (KeyError when absent),
      the value column checked (RuntimeError when absent) and rescaled. A column holding
      text or timestamps raises TypeError: the multiplication or `np.isnan` refuses it. */
  function Prepared(f: Frame, tag: string, name: string, noData: real, factor: real): (r: Result<Frame>)
    requires Wf(f)
    ensures r.Err? <==> !Has(f, tag) || !Has(DropColumn(f, tag), name)
                        || !Numeric(ValuesOf(DropColumn(f, tag), name))
    ensures !Has(f, tag) ==> r.Err? && r.error.KeyError?
    ensures Has(f, tag) && !Has(DropColumn(f, tag), name) ==> r.Err? && r.error.RuntimeError?
    ensures Has(f, tag) && Has(DropColumn(f, tag), name) && !Numeric(ValuesOf(DropColumn(f, tag), name)) ==>
      r.Err? && r.error.TypeError?
    ensures r.Ok? ==>
      && Wf(r.value) && r.value.index == f.index && !Has(r.value, tag)
      && Names(r.value.columns) == Names(DropColumn(f, tag).columns)
      && ValuesOf(r.value, name) == Scaled(ValuesOf(DropColumn(f, tag), name), noData, factor)
  {
    if !Has(f, tag) then Err(KeyError(tag))
    else
      var d := DropColumn(f, tag);
      if !Has(d, name) then Err(RuntimeError("Column \"" + name + "\" must be included in the dataframe"))
      else if !Numeric(ValuesOf(d, name)) then Err(TypeError("ufunc 'isnan' not supported for the input types"))
      else Ok(SetValues(d, name, Scaled(ValuesOf(d, name), noData, factor)))
  }

  /** The preparation as the source performs it: drop, check, then rescale the column's
      values in place. */
  method PrepareSource(f: Frame, tag: string, name: string, noData: real, factor: real) returns (r: Result<Frame>)
    requires Wf(f)
    ensures r == Prepared(f, tag, name, noData, factor)
  {
    if !Has(f, tag) {
      return Err(KeyError(tag));
    }
    var d := DropColumn(f, tag);
    if !Has(d, name) {
      return Err(RuntimeError("Column \"" + name + "\" must be included in the dataframe"));
    }
    var values := ValuesOf(d, name);
    if !Numeric(values) {
      return Err(TypeError("ufunc 'isnan' not supported for the input types"));
    }
    var a := new Field[|values|](k requires 0 <= k < |values| => values[k]);
    Rescale(a, noData, factor);
    assert a[..] == Scaled(values, noData, factor);
    return Ok(SetValues(d, name, a[..]));
  }

  // ---------------------------------------------------------------------------------
  // Combining the three sources

  /** Every timestamp of the three sources. */
  function AllTimes(f1: Frame, f2: Frame, f3: Frame): seq<Time> {
    f1.index + f2.index + f3.index
  }

  /** The common grid: every step of the frequency from the earliest start to the latest
      end of the three series (empty series have no start or end). */
  function Grid(f1: Frame, f2: Frame, f3: Frame, frequency: int): (g: seq<Time>)
    requires frequency > 0 && AllTimes(f1, f2, f3) != []
  {
    DateRange(MinOf(AllTimes(f1, f2, f3)), MaxOf(AllTimes(f1, f2, f3)), frequency)
  }

  /** The names of the three prepared sources do not clash, so the joins succeed. */
  predicate Disjoint(p1: Frame, p2: Frame, p3: Frame) {
    && (forall i | 0 <= i < |p2.columns| :: p2.columns[i].name !in Names(p1.columns))
    && (forall i | 0 <= i < |p3.columns| :: p3.columns[i].name !in Names(p1.columns) + Names(p2.columns))
  }

  /** The frame built on `grid`: its rows are the grid's times, each once, ascending or
      strictly descending; the time column repeats the index; each value column reads its
      feed by time. */
  predicate Assembled(grid: seq<Time>, s: CombineSettings, attrs: map<string, Field>,
                      feed1: Feed, feed2: Feed, feed3: Feed, out: Frame)
  {
    && Wf(out) && out.attrs == attrs && |out.index| == |grid|
    && (forall k | 0 <= k < |out.index| :: out.index[k] in grid)
    && (forall k | 0 <= k < |grid| :: grid[k] in out.index)
    && (!s.reverse ==> out.index == grid)
    && (s.reverse ==> forall i, j | 0 <= i < j < |out.index| :: out.index[i] > out.index[j])
    && Reads(out, s.timeTag, Stamps)
    && Reads(out, "values_k1", feed1)
    && Reads(out, "values_k2", feed2)
    && Reads(out, "values_k3", feed3)
  }

  /** The feed of one source: its rescaled values, looked up by time. */
  function SourceFeed(f: Frame, tag: string, name: string, noData: real, factor: real): Feed
    requires Wf(f) && Has(DropColumn(f, tag), name)
  {
    Lookup(f.index, Scaled(ValuesOf(DropColumn(f, tag), name), noData, factor))
  }

  /** What a successful combination looks like, in terms of the three inputs: the grid
      from the earliest to the latest time of the three, the attributes of the rain
      series, and each grid hour holding that source's rescaled value at the hour, or NaN
      when the source has no row there. */
  predicate Combined(f1: Frame, f2: Frame, f3: Frame, s: CombineSettings, out: Frame)
    requires s.frequency > 0 && Wf(f1) && Wf(f2) && Wf(f3)
  {
    && AllTimes(f1, f2, f3) != []
    && Prepared(f1, s.timeTag, "values_k1", s.noData.0, s.scale.0).Ok?
    && Prepared(f2, s.timeTag, "values_k2", s.noData.1, s.scale.1).Ok?
    && Prepared(f3, s.timeTag, "values_k3", s.noData.2, s.scale.2).Ok?
    && Assembled(Grid(f1, f2, f3, s.frequency), s, f1.attrs,
                 SourceFeed(f1, s.timeTag, "values_k1", s.noData.0, s.scale.0),
                 SourceFeed(f2, s.timeTag, "values_k2", s.noData.1, s.scale.1),
                 SourceFeed(f3, s.timeTag, "values_k3", s.noData.2, s.scale.2), out)
  }

  /** The three joins onto the grid succeed exactly when the prepared sources share no
      column name; then each value column reads its source by time and there is no time
      column yet. */
  lemma JoinChain(grid: seq<Time>, p1: Frame, p2: Frame, p3: Frame, tag: string)
    requires Wf(p1) && Wf(p2) && Wf(p3)
    requires Has(p1, "values_k1") && Has(p2, "values_k2") && Has(p3, "values_k3")
    requires !Has(p1, tag) && !Has(p2, tag) && !Has(p3, tag)
    ensures LeftJoin(Frame(grid, [], map[]), p1).Ok?
    ensures var j1 := LeftJoin(Frame(grid, [], map[]), p1).value;
      (LeftJoin(j1, p2).Ok? && LeftJoin(LeftJoin(j1, p2).value, p3).Ok?) <==> Disjoint(p1, p2, p3)
    ensures Disjoint(p1, p2, p3) ==>
      var j1 := LeftJoin(Frame(grid, [], map[]), p1).value;
      var j3 := LeftJoin(LeftJoin(j1, p2).value, p3).value;
      && j3.index == grid && !Has(j3, tag)
      && Reads(j3, "values_k1", Lookup(p1.index, ValuesOf(p1, "values_k1")))
      && Reads(j3, "values_k2", Lookup(p2.index, ValuesOf(p2, "values_k2")))
      && Reads(j3, "values_k3", Lookup(p3.index, ValuesOf(p3, "values_k3")))
  {
    JoinChainOk(grid, p1, p2, p3);
    if Disjoint(p1, p2, p3) {
      JoinChainReads(grid, p1, p2, p3, tag);
    }
  }

  /** The three joins succeed exactly when the column names are disjoint. */
  lemma JoinChainOk(grid: seq<Time>, p1: Frame, p2: Frame, p3: Frame)
    requires Wf(p1) && Wf(p2) && Wf(p3)
    ensures LeftJoin(Frame(grid, [], map[]), p1).Ok?
    ensures var j1 := LeftJoin(Frame(grid, [], map[]), p1).value;
      (LeftJoin(j1, p2).Ok? && LeftJoin(LeftJoin(j1, p2).value, p3).Ok?) <==> Disjoint(p1, p2, p3)
  {
    var common := Frame(grid, [], map[]);
    JoinNames(common, p1);
    assert Names(common.columns) == [];
    var j1 := LeftJoin(common, p1).value;
    JoinNames(j1, p2);
    if LeftJoin(j1, p2).Ok? {
      JoinNames(LeftJoin(j1, p2).value, p3);
    }
  }

  /** After three successful joins the grid is the index and each point's values read
      through their own times. */
  lemma JoinChainReads(grid: seq<Time>, p1: Frame, p2: Frame, p3: Frame, tag: string)
    requires Wf(p1) && Wf(p2) && Wf(p3)
    requires Has(p1, "values_k1") && Has(p2, "values_k2") && Has(p3, "values_k3")
    requires !Has(p1, tag) && !Has(p2, tag) && !Has(p3, tag)
    requires Disjoint(p1, p2, p3)
    ensures LeftJoin(Frame(grid, [], map[]), p1).Ok?
    ensures LeftJoin(LeftJoin(Frame(grid, [], map[]), p1).value, p2).Ok?
    ensures var j1 := LeftJoin(Frame(grid, [], map[]), p1).value;
      var j2 := LeftJoin(j1, p2).value;
      LeftJoin(j2, p3).Ok? &&
      var j3 := LeftJoin(j2, p3).value;
      && j3.index == grid && !Has(j3, tag)
      && Reads(j3, "values_k1", Lookup(p1.index, ValuesOf(p1, "values_k1")))
      && Reads(j3, "values_k2", Lookup(p2.index, ValuesOf(p2, "values_k2")))
      && Reads(j3, "values_k3", Lookup(p3.index, ValuesOf(p3, "values_k3")))
  {
    JoinChainOk(grid, p1, p2, p3);
    var common := Frame(grid, [], map[]);
    JoinNames(common, p1);
    assert Names(common.columns) == [];
    var j1 := LeftJoin(common, p1).value;
    JoinNames(j1, p2);
    var j2 := LeftJoin(j1, p2).value;
    JoinNames(j2, p3);
    var j3 := LeftJoin(j2, p3).value;
    JoinReads(common, p1, "values_k1");
    JoinKeepsReads(j1, p2, "values_k1", Lookup(p1.index, ValuesOf(p1, "values_k1")));
    JoinKeepsReads(j2, p3, "values_k1", Lookup(p1.index, ValuesOf(p1, "values_k1")));
    JoinReads(j1, p2, "values_k2");
    JoinKeepsReads(j2, p3, "values_k2", Lookup(p2.index, ValuesOf(p2, "values_k2")));
    JoinReads(j2, p3, "values_k3");
  }

  /** The time column: each grid time as a timestamp. */
  function StampColumn(grid: seq<Time>): (r: seq<Field>)
    ensures |r| == |grid| && forall k | 0 <= k < |grid| :: r[k] == Stamp(grid[k])
  {
    seq(|grid|, k requires 0 <= k < |grid| => Stamp(grid[k]))
  }

  /** The last steps after the joins: the time column added when the joins did not bring
      one, the rows sorted newest first when asked, the attributes set. */
  function Finished(j3: Frame, grid: seq<Time>, s: CombineSettings, attrs: map<string, Field>): (r: Frame)
    requires Wf(j3) && |j3.index| == |grid|
    ensures Wf(r) && r.attrs == attrs
  {
    var out1 := if Has(j3, s.timeTag) then j3 else AddColumn(j3, s.timeTag, StampColumn(grid));
    var out2 := if s.reverse then SortIndex(out1, false) else out1;
    out2.(attrs := attrs)
  }

  /** The finished frame is assembled from the joined sources: on the grid, newest first
      when asked, with the time column and every source readable by time. */
  lemma Finish(j3: Frame, grid: seq<Time>, s: CombineSettings, attrs: map<string, Field>,
               feed1: Feed, feed2: Feed, feed3: Feed)
    requires Wf(j3) && j3.index == grid && !Has(j3, s.timeTag)
    requires forall i, j | 0 <= i < j < |grid| :: grid[i] < grid[j]
    requires Reads(j3, "values_k1", feed1) && Reads(j3, "values_k2", feed2) && Reads(j3, "values_k3", feed3)
    ensures Assembled(grid, s, attrs, feed1, feed2, feed3, Finished(j3, grid, s, attrs))
  {
    var out1 := AddColumn(j3, s.timeTag, StampColumn(grid));
    FinishStamped(j3, grid, s.timeTag, feed1, feed2, feed3);
    if s.reverse {
      FinishSorted(out1, s.timeTag, feed1, feed2, feed3);
      AttrsKeepAssembled(grid, s, attrs, feed1, feed2, feed3, SortIndex(out1, false));
    } else {
      AttrsKeepAssembled(grid, s, attrs, feed1, feed2, feed3, out1);
    }
  }

  /** Setting the attributes changes nothing else that `Assembled` looks at. */
  lemma AttrsKeepAssembled(grid: seq<Time>, s: CombineSettings, attrs: map<string, Field>,
                           feed1: Feed, feed2: Feed, feed3: Feed, out2: Frame)
    requires Wf(out2) && |out2.index| == |grid|
    requires forall k | 0 <= k < |out2.index| :: out2.index[k] in grid
    requires forall k | 0 <= k < |grid| :: grid[k] in out2.index
    requires !s.reverse ==> out2.index == grid
    requires s.reverse ==> forall i, j | 0 <= i < j < |out2.index| :: out2.index[i] > out2.index[j]
    requires Reads(out2, s.timeTag, Stamps)
    requires Reads(out2, "values_k1", feed1) && Reads(out2, "values_k2", feed2) && Reads(out2, "values_k3", feed3)
    ensures Assembled(grid, s, attrs, feed1, feed2, feed3, out2.(attrs := attrs))
  {
    var out := out2.(attrs := attrs);
    ReadsIgnoresAttrs(out2, attrs, s.timeTag, Stamps);
    ReadsIgnoresAttrs(out2, attrs, "values_k1", feed1);
    ReadsIgnoresAttrs(out2, attrs, "values_k2", feed2);
    ReadsIgnoresAttrs(out2, attrs, "values_k3", feed3);
  }

  /** The time column added: the grid stays the index and every source still reads. */
  lemma FinishStamped(j3: Frame, grid: seq<Time>, timeTag: string, feed1: Feed, feed2: Feed, feed3: Feed)
    requires Wf(j3) && j3.index == grid && !Has(j3, timeTag)
    requires Reads(j3, "values_k1", feed1) && Reads(j3, "values_k2", feed2) && Reads(j3, "values_k3", feed3)
    ensures var out1 := AddColumn(j3, timeTag, StampColumn(grid));
      && Wf(out1) && out1.index == grid
      && Reads(out1, timeTag, Stamps)
      && Reads(out1, "values_k1", feed1) && Reads(out1, "values_k2", feed2) && Reads(out1, "values_k3", feed3)
  {
    var stamps := StampColumn(grid);
    AddColumnReads(j3, timeTag, stamps);
    AddColumnKeepsReads(j3, timeTag, stamps, "values_k1", feed1);
    AddColumnKeepsReads(j3, timeTag, stamps, "values_k2", feed2);
    AddColumnKeepsReads(j3, timeTag, stamps, "values_k3", feed3);
  }

  /** Sorted newest first: the same times in decreasing order, every column still reads. */
  lemma FinishSorted(out1: Frame, timeTag: string, feed1: Feed, feed2: Feed, feed3: Feed)
    requires Wf(out1) && forall i, j | 0 <= i < j < |out1.index| :: out1.index[i] < out1.index[j]
    requires Reads(out1, timeTag, Stamps)
    requires Reads(out1, "values_k1", feed1) && Reads(out1, "values_k2", feed2) && Reads(out1, "values_k3", feed3)
    ensures var o := SortIndex(out1, false);
      && |o.index| == |out1.index|
      && (forall k | 0 <= k < |o.index| :: o.index[k] in out1.index)
      && (forall k | 0 <= k < |out1.index| :: out1.index[k] in o.index)
      && (forall i, j | 0 <= i < j < |o.index| :: o.index[i] > o.index[j])
      && Reads(o, timeTag, Stamps)
      && Reads(o, "values_k1", feed1) && Reads(o, "values_k2", feed2) && Reads(o, "values_k3", feed3)
  {
    SortDescendingIncreasing(out1);
    var ps := SortOrder(out1.index, false);
    SelectRowsKeepsReads(out1, ps, timeTag, Stamps);
    SelectRowsKeepsReads(out1, ps, "values_k1", feed1);
    SelectRowsKeepsReads(out1, ps, "values_k2", feed2);
    SelectRowsKeepsReads(out1, ps, "values_k3", feed3);
  }

  /** The joins onto the grid and the last steps as one value: the three left joins, the
      time column (when the joins did not bring one), the sort and the attributes. */
  function OntoGrid(grid: seq<Time>, p1: Frame, p2: Frame, p3: Frame, s: CombineSettings, attrs: map<string, Field>)
    : (r: Result<Frame>)
    requires Wf(p1) && Wf(p2) && Wf(p3)
    ensures r.Ok? ==> Wf(r.value)
  {
    var j1 :- LeftJoin(Frame(grid, [], map[]), p1);
    var j2 :- LeftJoin(j1, p2);
    var j3 :- LeftJoin(j2, p3);
    Ok(Finished(j3, grid, s, attrs))
  }

  /** The joins onto the grid and the last steps, over the prepared sources. */
  method JoinOntoGrid(grid: seq<Time>, p1: Frame, p2: Frame, p3: Frame, s: CombineSettings, attrs: map<string, Field>)
    returns (r: Result<Frame>)
    requires Wf(p1) && Wf(p2) && Wf(p3)
    requires Has(p1, "values_k1") && Has(p2, "values_k2") && Has(p3, "values_k3")
    requires !Has(p1, s.timeTag) && !Has(p2, s.timeTag) && !Has(p3, s.timeTag)
    requires forall i, j | 0 <= i < j < |grid| :: grid[i] < grid[j]
    ensures r == OntoGrid(grid, p1, p2, p3, s, attrs)
    ensures r.Err? <==> !Disjoint(p1, p2, p3)
    ensures r.Err? ==> r.error.ValueError?
    ensures r.Ok? ==> Assembled(grid, s, attrs, Lookup(p1.index, ValuesOf(p1, "values_k1")),
                                Lookup(p2.index, ValuesOf(p2, "values_k2")),
                                Lookup(p3.index, ValuesOf(p3, "values_k3")), r.value)
  {
    JoinChain(grid, p1, p2, p3, s.timeTag);
    var common := Frame(grid, [], map[]);
    var j1 := LeftJoin(common, p1).value;
    var j2 :- LeftJoin(j1, p2);
    var j3 :- LeftJoin(j2, p3);
    var out := j3;
    if !Has(out, s.timeTag) {
      out := AddColumn(out, s.timeTag, StampColumn(grid));
    }
    if s.reverse {
      out := SortIndex(out, false);
    }
    out := out.(attrs := attrs);
    assert out == Finished(j3, grid, s, attrs);
    Finish(j3, grid, s, attrs, Lookup(p1.index, ValuesOf(p1, "values_k1")),
           Lookup(p2.index, ValuesOf(p2, "values_k2")), Lookup(p3.index, ValuesOf(p3, "values_k3")));
    return Ok(out);
  }

  /** `combine_data_point_by_time` as one value: None when a source is missing, otherwise
      the three prepared sources joined onto the grid that covers them. */
  function Combine(k1: Option<Frame>, k2: Option<Frame>, k3: Option<Frame>, s: CombineSettings)
    : (r: Result<Option<Frame>>)
    requires s.frequency > 0
    requires k1.Some? ==> Wf(k1.value)
    requires k2.Some? ==> Wf(k2.value)
    requires k3.Some? ==> Wf(k3.value)
    ensures r.Ok? && r.value.Some? ==> Wf(r.value.value)
  {
    if k1.None? || k2.None? || k3.None? then Ok(None)
    else
      var all := AllTimes(k1.value, k2.value, k3.value);
      if all == [] then Err(ValueError("Neither `start` nor `end` can be NaT"))
      else
        var p1 :- Prepared(k1.value, s.timeTag, "values_k1", s.noData.0, s.scale.0);
        var p2 :- Prepared(k2.value, s.timeTag, "values_k2", s.noData.1, s.scale.1);
        var p3 :- Prepared(k3.value, s.timeTag, "values_k3", s.noData.2, s.scale.2);
        var out :- OntoGrid(DateRange(MinOf(all), MaxOf(all), s.frequency), p1, p2, p3, s, k1.value.attrs);
        Ok(Some(out))
  }

  /** `combine_data_point_by_time`. */
  method CombineDataPointByTime(k1: Option<Frame>, k2: Option<Frame>, k3: Option<Frame>, s: CombineSettings)
    returns (r: Result<Option<Frame>>)
    requires s.frequency > 0
    requires k1.Some? ==> Wf(k1.value)
    requires k2.Some? ==> Wf(k2.value)
    requires k3.Some? ==> Wf(k3.value)
    ensures r == Combine(k1, k2, k3, s)
    ensures r == Ok(None) <==> k1.None? || k2.None? || k3.None?
    ensures k1.Some? && k2.Some? && k3.Some? ==>
      var (f1, f2, f3) := (k1.value, k2.value, k3.value);
      var tag := s.timeTag;
      var p1 := Prepared(f1, tag, "values_k1", s.noData.0, s.scale.0);
      var p2 := Prepared(f2, tag, "values_k2", s.noData.1, s.scale.1);
      var p3 := Prepared(f3, tag, "values_k3", s.noData.2, s.scale.2);
      && (AllTimes(f1, f2, f3) == [] ==> r.Err? && r.error.ValueError?)
      && (AllTimes(f1, f2, f3) != [] && p1.Err? ==> r == Err(p1.error))
      && (AllTimes(f1, f2, f3) != [] && p1.Ok? && p2.Err? ==> r == Err(p2.error))
      && (AllTimes(f1, f2, f3) != [] && p1.Ok? && p2.Ok? && p3.Err? ==> r == Err(p3.error))
      && (AllTimes(f1, f2, f3) != [] && p1.Ok? && p2.Ok? && p3.Ok? ==>
            (r.Err? <==> !Disjoint(p1.value, p2.value, p3.value)) && (r.Err? ==> r.error.ValueError?))
      && (r.Ok? ==> r.value.Some? && Combined(f1, f2, f3, s, r.value.value))
  {
    if k1.None? || k2.None? || k3.None? {
      return Ok(None);
    }
    var f1, f2, f3 := k1.value, k2.value, k3.value;
    var all := AllTimes(f1, f2, f3);
    if all == [] {
      return Err(ValueError("Neither `start` nor `end` can be NaT"));
    }
    var grid := DateRange(MinOf(all), MaxOf(all), s.frequency);
    var attrs := f1.attrs;
    var p1 :- PrepareSource(f1, s.timeTag, "values_k1", s.noData.0, s.scale.0);
    var p2 :- PrepareSource(f2, s.timeTag, "values_k2", s.noData.1, s.scale.1);
    var p3 :- PrepareSource(f3, s.timeTag, "values_k3", s.noData.2, s.scale.2);
    DateRangeIncreasing(MinOf(all), MaxOf(all), s.frequency);
    var out :- JoinOntoGrid(grid, p1, p2, p3, s, attrs);
    return Ok(Some(out));
  }
}
