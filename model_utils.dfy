/** Shaping the inputs and outputs of the soil-moisture model (sm_model/lib_model_utils.py):
    cleaning the forcing series, stacking them into the model's matrix, extracting the
    parameter vector, and packing the results and the metrics. The interpolated values
    of pandas' gap fill are not part of this model (`interp` stands for them); which gaps
    are filled is. */
module ModelUtils {
  import opened Wrappers
  import opened Values
  import opened Frames
  import Dicts
  import StringUtils

  // ---------------------------------------------------------------------------------
  // Gap filling (`Series.interpolate(limit=..., limit_direction=...)`)

  predicate Missing(v: seq<Field>, i: int)
    requires 0 <= i < |v|
  {
    AsReal(v[i]).None?
  }

  /** No valid value within `limit` positions of `j` (on either side). */
  predicate Isolated(v: seq<Field>, j: int, limit: nat) {
    forall i | 0 <= i < |v| && j - limit <= i <= j + limit :: Missing(v, i)
  }

  /** pandas' forward window: no valid value in `[j - limit, j]`. */
  predicate ForwardKept(v: seq<Field>, j: int, limit: nat) {
    forall i | 0 <= i < |v| && j - limit <= i <= j :: Missing(v, i)
  }

  /** pandas' backward window: no valid value in `[j, j + limit]`. */
  predicate BackwardKept(v: seq<Field>, j: int, limit: nat) {
    forall i | 0 <= i < |v| && j <= i <= j + limit :: Missing(v, i)
  }

  /** No valid value before `j` (a leading gap) / after `j` (a trailing gap). */
  predicate Leading(v: seq<Field>, j: int) {
    forall i | 0 <= i < |v| && i <= j :: Missing(v, i)
  }

  predicate Trailing(v: seq<Field>, j: int) {
    forall i | 0 <= i < |v| && j <= i :: Missing(v, i)
  }

  datatype Direction = Forward | Backward | Both

  /** `limit_direction`, which pandas lowercases first: any other string raises ValueError. */
  function ParseDirection(s: string): (r: Result<Direction>)
    ensures r.Ok? <==> StringUtils.Lower(s) in {"forward", "backward", "both"}
    ensures r.Ok? ==> (r.value == Forward <==> StringUtils.Lower(s) == "forward")
    ensures r.Ok? ==> (r.value == Backward <==> StringUtils.Lower(s) == "backward")
    ensures r.Err? ==> r.error.ValueError?
  {
    var d := StringUtils.Lower(s);
    if d == "forward" then Ok(Forward)
    else if d == "backward" then Ok(Backward)
    else if d == "both" then Ok(Both)
    else Err(ValueError("Invalid limit_direction"))
  }

  /** The gaps pandas leaves open (`preserve_nans`). */
  predicate Preserved(v: seq<Field>, j: int, limit: nat, d: Direction) {
    match d
    case Forward => Leading(v, j) || ForwardKept(v, j, limit)
    case Backward => Trailing(v, j) || BackwardKept(v, j, limit)
    case Both => ForwardKept(v, j, limit) && BackwardKept(v, j, limit)
  }

  /** Linear interpolation with a limit: valid values stay, preserved gaps stay NaN, and
      the other gaps take the interpolated value. */
  function FillGaps(v: seq<Field>, limit: nat, d: Direction, interp: (seq<Field>, nat) -> real): (r: seq<Field>)
    ensures |r| == |v|
  {
    seq(|v|, j requires 0 <= j < |v| =>
      if !Missing(v, j) then v[j]
      else if Preserved(v, j, limit, d) then Null
      else Num(interp(v, j)))
  }

  /** Both windows empty is the same as an empty window of radius `limit`. */
  lemma IsolatedBothWindows(v: seq<Field>, j: int, limit: nat)
    ensures Isolated(v, j, limit) <==> ForwardKept(v, j, limit) && BackwardKept(v, j, limit)
  {
    if ForwardKept(v, j, limit) && BackwardKept(v, j, limit) {
      forall i | 0 <= i < |v| && j - limit <= i <= j + limit ensures Missing(v, i) {
        if i <= j {
          assert ForwardKept(v, j, limit);
        } else {
          assert BackwardKept(v, j, limit);
        }
      }
    }
  }

  /** With both directions, a gap stays open exactly when no valid value lies within
      `limit` positions of it; valid values are never changed, and filled gaps hold a
      number. */
  lemma FillGapsBoth(v: seq<Field>, limit: nat, interp: (seq<Field>, nat) -> real, j: nat)
    requires j < |v|
    ensures !Missing(v, j) ==> FillGaps(v, limit, Both, interp)[j] == v[j]
    ensures Missing(v, j) ==> (FillGaps(v, limit, Both, interp)[j].Null? <==> Isolated(v, j, limit))
    ensures Missing(v, j) && !Isolated(v, j, limit) ==> FillGaps(v, limit, Both, interp)[j].Num?
  {
    var r := FillGaps(v, limit, Both, interp);
    IsolatedBothWindows(v, j, limit);
    if Missing(v, j) {
      assert r[j] == if Preserved(v, j, limit, Both) then Null else Num(interp(v, j));
    }
  }

  /** Forward filling leaves a leading gap open whatever its length. */
  lemma FillGapsForwardLeading(v: seq<Field>, limit: nat, interp: (seq<Field>, nat) -> real, j: nat)
    requires j < |v| && Leading(v, j)
    ensures FillGaps(v, limit, Forward, interp)[j] == Null
  {
    assert Missing(v, j);
    assert Preserved(v, j, limit, Forward);
  }

  /** `series.interpolate(limit=..., limit_direction=...)`: a limit below 1 or an unknown
      direction is a ValueError. */
  function Interpolate(v: seq<Field>, limit: nat, direction: string,
                       interp: (seq<Field>, nat) -> real): (r: Result<seq<Field>>)
    ensures r.Err? <==> limit == 0 || StringUtils.Lower(direction) !in {"forward", "backward", "both"}
    ensures r.Err? ==> r.error.ValueError?
    ensures r.Ok? ==> |r.value| == |v|
  {
    if limit == 0 then Err(ValueError("Limit must be greater than 0"))
    else
      var d :- ParseDirection(direction);
      Ok(FillGaps(v, limit, d, interp))
  }

  // ---------------------------------------------------------------------------------
  // Cleaning the forcing series (filter_model_data)

  /** The keyword arguments of `filter_model_data`. */
  datatype FilterSettings = FilterSettings(
    rain: string, airt: string, sm: string, noData: real,
    limitAirt: nat, limitSm: nat, directionAirt: string, directionSm: string)

  const DefaultFilter := FilterSettings("rain", "air_temperature", "soil_moisture", NoData, 2, 2, "both", "both")

  /** `frame[frame[tag] == nodata] = NaN`: a row whose `tag` value is the no-data value
      becomes missing in every column. */
  function NullRows(f: Frame, tag: string, noData: real): (r: Frame)
    requires Wf(f) && Has(f, tag)
    ensures Wf(r) && r.index == f.index && r.attrs == f.attrs && Names(r.columns) == Names(f.columns)
    ensures forall c, k | 0 <= c < |f.columns| && 0 <= k < |f.index| ::
      r.columns[c].values[k] == (if IsNoData(ValuesOf(f, tag)[k], noData) then Null else f.columns[c].values[k])
  {
    var hit := ValuesOf(f, tag);
    var r := f.(columns := seq(|f.columns|, c requires 0 <= c < |f.columns| =>
      Column(f.columns[c].name, seq(|f.index|, k requires 0 <= k < |f.index| =>
        if IsNoData(hit[k], noData) then Null else f.columns[c].values[k]))));
    assert Names(r.columns) == Names(f.columns);
    r
  }

  /** A row that `dropna(how='all')` keeps: some column has a value there. */
  predicate HasValue(f: Frame, k: nat)
    requires Wf(f) && k < |f.index|
  {
    exists c | 0 <= c < |f.columns| :: !f.columns[c].values[k].Null?
  }

  /** The positions from `from` on that `dropna(how='all')` keeps, in order. */
  function NonEmptyRows(f: Frame, from: nat): (ps: seq<nat>)
    requires Wf(f) && from <= |f.index|
    ensures forall k | 0 <= k < |ps| :: from <= ps[k] < |f.index| && HasValue(f, ps[k])
    ensures forall i, j | 0 <= i < j < |ps| :: ps[i] < ps[j]
    ensures forall p | from <= p < |f.index| && HasValue(f, p) :: p in ps
    decreases |f.index| - from
  {
    if from == |f.index| then []
    else if HasValue(f, from) then [from] + NonEmptyRows(f, from + 1)
    else NonEmptyRows(f, from + 1)
  }

  function DropEmptyRows(f: Frame): (r: Frame)
    requires Wf(f)
    ensures Wf(r) && Names(r.columns) == Names(f.columns) && r.attrs == f.attrs
  {
    SelectRows(f, NonEmptyRows(f, 0))
  }

  /** The masked assignment `frame[name][frame[name] == nodata] = NaN`, in place. */
  method MaskNoData(a: array<Field>, noData: real)
    modifies a
    ensures forall k | 0 <= k < a.Length :: a[k] == Unmark(old(a[k]), noData)
  {
    for k := 0 to a.Length
      invariant forall j | 0 <= j < k :: a[j] == Unmark(old(a[j]), noData)
      invariant forall j | k <= j < a.Length :: a[j] == old(a[j])
    {
      if IsNoData(a[k], noData) {
        a[k] := Null;
      }
    }
  }

  function Masked(v: seq<Field>, noData: real): (r: seq<Field>)
    ensures |r| == |v| && forall k | 0 <= k < |v| :: r[k] == Unmark(v[k], noData)
  {
    seq(|v|, k requires 0 <= k < |v| => Unmark(v[k], noData))
  }

  /** The rows that survive: the ascending sort, then the rows of no-data rain nulled and
      all-missing rows dropped. */
  function Survivors(f: Frame, s: FilterSettings): seq<nat>
    requires Wf(f) && Has(f, s.rain)
  {
    NonEmptyRows(NullRows(SortIndex(f, true), s.rain, s.noData), 0)
  }

  function Dropped(f: Frame, s: FilterSettings): (r: Frame)
    requires Wf(f) && Has(f, s.rain)
    ensures Wf(r) && Names(r.columns) == Names(f.columns)
  {
    DropEmptyRows(NullRows(SortIndex(f, true), s.rain, s.noData))
  }

  /** A column as the gap fill receives it: surviving rows, no-data values masked. */
  function Unfilled(f: Frame, s: FilterSettings, name: string): seq<Field>
    requires Wf(f) && Has(f, s.rain) && Has(f, name)
  {
    Masked(ValuesOf(Dropped(f, s), name), s.noData)
  }

  /** The two masked assignments: the no-data values of the two filled series become
      missing. */
  function MaskSeries(d: Frame, s: FilterSettings): (m: Frame)
    requires Has(d, s.airt) && Has(d, s.sm)
    ensures m.index == d.index && m.attrs == d.attrs && Names(m.columns) == Names(d.columns)
    ensures Wf(d) ==> Wf(m)
    ensures s.airt != s.sm ==> ValuesOf(m, s.airt) == Masked(ValuesOf(d, s.airt), s.noData)
    ensures ValuesOf(m, s.sm) == Masked(ValuesOf(d, s.sm), s.noData)
    ensures forall other | Has(d, other) && other != s.airt && other != s.sm :: ValuesOf(m, other) == ValuesOf(d, other)
  {
    var m1 := SetValues(d, s.airt, Masked(ValuesOf(d, s.airt), s.noData));
    var m2 := SetValues(m1, s.sm, Masked(ValuesOf(m1, s.sm), s.noData));
    assert s.airt != s.sm ==> ValuesOf(m2, s.airt) == Masked(ValuesOf(d, s.airt), s.noData) && ValuesOf(m1, s.sm) == ValuesOf(d, s.sm) by {
      if s.airt != s.sm {
        SetValuesOther(d, s.airt, Masked(ValuesOf(d, s.airt), s.noData), s.sm);
        SetValuesOther(m1, s.sm, Masked(ValuesOf(m1, s.sm), s.noData), s.airt);
      }
    }
    assert forall other | Has(d, other) && other != s.airt && other != s.sm :: ValuesOf(m2, other) == ValuesOf(d, other) by {
      forall other | Has(d, other) && other != s.airt && other != s.sm ensures ValuesOf(m2, other) == ValuesOf(d, other) {
        SetValuesOther(d, s.airt, Masked(ValuesOf(d, s.airt), s.noData), other);
        SetValuesOther(m1, s.sm, Masked(ValuesOf(m1, s.sm), s.noData), other);
      }
    }
    m2
  }

  /** The two gap fills, air temperature first. */
  function FillSeries(m: Frame, s: FilterSettings, interp: (seq<Field>, nat) -> real): (r: Result<Frame>)
    requires Has(m, s.airt) && Has(m, s.sm)
    ensures r.Err? <==> Interpolate([], s.limitAirt, s.directionAirt, interp).Err?
                        || Interpolate([], s.limitSm, s.directionSm, interp).Err?
    ensures r.Err? ==> r.error.ValueError?
    ensures r.Ok? ==> r.value.index == m.index && r.value.attrs == m.attrs && Names(r.value.columns) == Names(m.columns)
    ensures r.Ok? && Wf(m) ==> Wf(r.value)
    ensures r.Ok? && s.airt != s.sm ==>
      ValuesOf(r.value, s.airt) == FillGaps(ValuesOf(m, s.airt), s.limitAirt, ParseDirection(s.directionAirt).value, interp)
    ensures r.Ok? && s.airt != s.sm ==>
      ValuesOf(r.value, s.sm) == FillGaps(ValuesOf(m, s.sm), s.limitSm, ParseDirection(s.directionSm).value, interp)
    ensures r.Ok? ==> forall other | Has(m, other) && other != s.airt && other != s.sm :: ValuesOf(r.value, other) == ValuesOf(m, other)
  {
    var a :- Interpolate(ValuesOf(m, s.airt), s.limitAirt, s.directionAirt, interp);
    var m3 := SetValues(m, s.airt, a);
    var b :- Interpolate(ValuesOf(m3, s.sm), s.limitSm, s.directionSm, interp);
    var r := SetValues(m3, s.sm, b);
    assert s.airt != s.sm ==> ValuesOf(r, s.airt) == a && ValuesOf(m3, s.sm) == ValuesOf(m, s.sm) by {
      if s.airt != s.sm {
        SetValuesOther(m, s.airt, a, s.sm);
        SetValuesOther(m3, s.sm, b, s.airt);
      }
    }
    assert forall other | Has(m, other) && other != s.airt && other != s.sm :: ValuesOf(r, other) == ValuesOf(m, other) by {
      forall other | Has(m, other) && other != s.airt && other != s.sm ensures ValuesOf(r, other) == ValuesOf(m, other) {
        SetValuesOther(m, s.airt, a, other);
        SetValuesOther(m3, s.sm, b, other);
      }
    }
    Ok(r)
  }

  /** `filter_model_data` before the final rename: sort ascending, null and drop the
      rows of no-data rain, mask, fill. A missing series is a KeyError, checked in the
      order the source first reads them; no step changes the column names. */
  function CleanModelData(f: Frame, s: FilterSettings, interp: (seq<Field>, nat) -> real): (r: Result<Frame>)
    requires Wf(f)
    ensures !Has(f, s.rain) ==> r == Err(KeyError(s.rain))
    ensures Has(f, s.rain) && !Has(f, s.airt) ==> r == Err(KeyError(s.airt))
    ensures Has(f, s.rain) && Has(f, s.airt) && !Has(f, s.sm) ==> r == Err(KeyError(s.sm))
    ensures r.Err? <==> !Has(f, s.rain) || !Has(f, s.airt) || !Has(f, s.sm)
                        || Interpolate([], s.limitAirt, s.directionAirt, interp).Err?
                        || Interpolate([], s.limitSm, s.directionSm, interp).Err?
    ensures r.Ok? ==> Wf(r.value) && Names(r.value.columns) == Names(f.columns) && r.value.attrs == f.attrs
  {
    if !Has(f, s.rain) then Err(KeyError(s.rain))
    else if !Has(f, s.airt) then Err(KeyError(s.airt))
    else if !Has(f, s.sm) then Err(KeyError(s.sm))
    else
      assert Names(Dropped(f, s).columns) == Names(f.columns);
      FillSeries(MaskSeries(Dropped(f, s), s), s, interp)
  }

  /** After nulling the rows of no-data rain, a column reads as before, except on those
      rows, where it is missing. */
  lemma NullRowsValues(f: Frame, tag: string, noData: real, name: string, k: nat)
    requires Wf(f) && Has(f, tag) && Has(f, name) && k < |f.index|
    ensures Has(NullRows(f, tag, noData), name)
    ensures ValuesOf(NullRows(f, tag, noData), name)[k]
      == (if IsNoData(ValuesOf(f, tag)[k], noData) then Null else ValuesOf(f, name)[k])
  {
    ColumnIndexNames(f.columns, NullRows(f, tag, noData).columns, name);
  }

  /** A sorted row survives exactly when its rain is not the no-data value and some
      column has a value in it. */
  lemma SurvivorsSpec(f: Frame, s: FilterSettings, p: nat)
    requires Wf(f) && Has(f, s.rain)
    ensures var sorted := SortIndex(f, true);
      p in Survivors(f, s) <==>
        p < |f.index| && !IsNoData(ValuesOf(sorted, s.rain)[p], s.noData) && HasValue(sorted, p)
  {
    var sorted := SortIndex(f, true);
    if p in Survivors(f, s) {
      SurvivorKept(f, s, p);
    }
    if p < |f.index| && !IsNoData(ValuesOf(sorted, s.rain)[p], s.noData) && HasValue(sorted, p) {
      KeptSurvives(f, s, p);
    }
  }

  lemma SurvivorKept(f: Frame, s: FilterSettings, p: nat)
    requires Wf(f) && Has(f, s.rain) && p in Survivors(f, s)
    ensures var sorted := SortIndex(f, true);
      p < |f.index| && !IsNoData(ValuesOf(sorted, s.rain)[p], s.noData) && HasValue(sorted, p)
  {
    var sorted := SortIndex(f, true);
    var n := NullRows(sorted, s.rain, s.noData);
    var ps := Survivors(f, s);
    var q :| 0 <= q < |ps| && ps[q] == p;
    var c :| 0 <= c < |n.columns| && !n.columns[c].values[p].Null?;
    assert !IsNoData(ValuesOf(sorted, s.rain)[p], s.noData);
    assert n.columns[c].values[p] == sorted.columns[c].values[p];
  }

  lemma KeptSurvives(f: Frame, s: FilterSettings, p: nat)
    requires Wf(f) && Has(f, s.rain)
    requires var sorted := SortIndex(f, true);
      p < |f.index| && !IsNoData(ValuesOf(sorted, s.rain)[p], s.noData) && HasValue(sorted, p)
    ensures p in Survivors(f, s)
  {
    var sorted := SortIndex(f, true);
    var n := NullRows(sorted, s.rain, s.noData);
    var c :| 0 <= c < |sorted.columns| && !sorted.columns[c].values[p].Null?;
    assert n.columns[c].values[p] == sorted.columns[c].values[p];
    assert HasValue(n, p);
  }

  /** On a surviving row every column reads what the sorted frame has there. */
  lemma DroppedValues(f: Frame, s: FilterSettings, name: string, k: nat)
    requires Wf(f) && Has(f, s.rain) && Has(f, name) && k < |Survivors(f, s)|
    ensures var sorted := SortIndex(f, true);
      && Has(Dropped(f, s), name) && |Dropped(f, s).index| == |Survivors(f, s)|
      && Survivors(f, s)[k] < |sorted.index|
      && Dropped(f, s).index[k] == sorted.index[Survivors(f, s)[k]]
      && ValuesOf(Dropped(f, s), name)[k] == ValuesOf(sorted, name)[Survivors(f, s)[k]]
      && !IsNoData(ValuesOf(sorted, s.rain)[Survivors(f, s)[k]], s.noData)
  {
    var sorted := SortIndex(f, true);
    var n := NullRows(sorted, s.rain, s.noData);
    var ps := Survivors(f, s);
    SelectRowsValues(sorted, Iota(0), name);
    ColumnIndexNames(f.columns, sorted.columns, name);
    ColumnIndexNames(f.columns, sorted.columns, s.rain);
    SelectRowsValues(n, ps, name);
    SurvivorsSpec(f, s, ps[k]);
    NullRowsValues(sorted, s.rain, s.noData, name, ps[k]);
  }

  /** The rows of the cleaned frame are the surviving rows of the ascending sort, in
      order, so its index is ascending. */
  lemma CleanModelDataRows(f: Frame, s: FilterSettings, interp: (seq<Field>, nat) -> real)
    requires Wf(f) && CleanModelData(f, s, interp).Ok?
    ensures var r := CleanModelData(f, s, interp).value;
      var ps := Survivors(f, s);
      && |r.index| == |ps|
      && (forall k | 0 <= k < |ps| :: ps[k] < |f.index| && r.index[k] == SortIndex(f, true).index[ps[k]])
      && (forall i, j | 0 <= i < j < |r.index| :: r.index[i] <= r.index[j])
  {
    var r := CleanModelData(f, s, interp).value;
    var sorted := SortIndex(f, true);
    var ps := Survivors(f, s);
    assert r.index == Dropped(f, s).index;
    SortIndexSpec(f, true);
    forall i, j | 0 <= i < j < |r.index| ensures r.index[i] <= r.index[j] {
      assert ps[i] < ps[j];
      assert InOrder(sorted.index[ps[i]], sorted.index[ps[j]], true);
    }
  }

  /** No row of the cleaned frame keeps the no-data rain; the rain values are those of the
      surviving rows. */
  lemma CleanModelDataRain(f: Frame, s: FilterSettings, interp: (seq<Field>, nat) -> real, k: nat)
    requires Wf(f) && CleanModelData(f, s, interp).Ok?
    requires s.rain != s.airt && s.rain != s.sm
    requires k < |Survivors(f, s)|
    ensures var r := CleanModelData(f, s, interp).value;
      && Survivors(f, s)[k] < |f.index|
      && Has(r, s.rain) && k < |ValuesOf(r, s.rain)|
      && ValuesOf(r, s.rain)[k] == ValuesOf(SortIndex(f, true), s.rain)[Survivors(f, s)[k]]
      && !IsNoData(ValuesOf(r, s.rain)[k], s.noData)
  {
    DroppedValues(f, s, s.rain, k);
  }

  /** Each filled series is the gap fill of its surviving values with no-data masked. */
  lemma CleanModelDataFilled(f: Frame, s: FilterSettings, interp: (seq<Field>, nat) -> real)
    requires Wf(f) && CleanModelData(f, s, interp).Ok?
    requires s.airt != s.sm
    ensures ValuesOf(CleanModelData(f, s, interp).value, s.airt)
      == FillGaps(Unfilled(f, s, s.airt), s.limitAirt, ParseDirection(s.directionAirt).value, interp)
    ensures ValuesOf(CleanModelData(f, s, interp).value, s.sm)
      == FillGaps(Unfilled(f, s, s.sm), s.limitSm, ParseDirection(s.directionSm).value, interp)
  {
  }

  /** Cleaning never changes a present value of a filled series: a surviving value that is
      a number other than the no-data value comes out as it went in. */
  lemma CleanKeepsValues(f: Frame, s: FilterSettings, interp: (seq<Field>, nat) -> real, name: string, k: nat)
    requires Wf(f) && CleanModelData(f, s, interp).Ok?
    requires s.airt != s.sm && (name == s.airt || name == s.sm)
    requires k < |Survivors(f, s)|
    ensures var x := ValuesOf(SortIndex(f, true), name)[Survivors(f, s)[k]];
      AsReal(x).Some? && !IsNoData(x, s.noData) ==> ValuesOf(CleanModelData(f, s, interp).value, name)[k] == x
  {
    var x := ValuesOf(SortIndex(f, true), name)[Survivors(f, s)[k]];
    if AsReal(x).Some? && !IsNoData(x, s.noData) {
      DroppedValues(f, s, name, k);
      var v := Unfilled(f, s, name);
      assert v[k] == x;
      var limit := if name == s.airt then s.limitAirt else s.limitSm;
      var d := if name == s.airt then s.directionAirt else s.directionSm;
      CleanModelDataFilled(f, s, interp);
      assert ValuesOf(CleanModelData(f, s, interp).value, name) == FillGaps(v, limit, ParseDirection(d).value, interp);
      assert !Missing(v, k);
    }
  }

  /** With the defaults (limit 2, both directions), a value that is missing or no-data and
      has no valid neighbour within two rows stays missing; any other gap is filled. */
  lemma CleanFillsShortGaps(f: Frame, interp: (seq<Field>, nat) -> real, name: string, k: nat)
    requires Wf(f) && CleanModelData(f, DefaultFilter, interp).Ok?
    requires name == DefaultFilter.airt || name == DefaultFilter.sm
    requires k < |Survivors(f, DefaultFilter)|
    ensures var v := Unfilled(f, DefaultFilter, name);
      var out := ValuesOf(CleanModelData(f, DefaultFilter, interp).value, name);
      Missing(v, k) ==> (out[k].Null? <==> Isolated(v, k, 2))
  {
    var s := DefaultFilter;
    CleanModelDataFilled(f, s, interp);
    DroppedValues(f, s, name, k);
    FillGapsBoth(Unfilled(f, s, name), 2, interp, k);
  }

  /** One masked assignment `frame[name][frame[name] == nodata] = NaN`, on the column's
      values in place. */
  method MaskColumn(d: Frame, name: string, noData: real) returns (m: Frame)
    requires Has(d, name)
    ensures m == SetValues(d, name, Masked(ValuesOf(d, name), noData))
  {
    var values := ValuesOf(d, name);
    var a := new Field[|values|](k requires 0 <= k < |values| => values[k]);
    MaskNoData(a, noData);
    assert a[..] == Masked(values, noData);
    m := SetValues(d, name, a[..]);
  }

  /** `filter_model_data` as the source performs it: the frame is reassigned step by step,
      the two masks are assigned in place, and the columns are finally renamed by the
      inverted field map (`inverse`, the value of `invert_dict(fields)`). */
  method FilterModelData(f: Frame, inverse: map<string, string>, s: FilterSettings,
                         interp: (seq<Field>, nat) -> real) returns (r: Result<Frame>)
    requires Wf(f)
    ensures CleanModelData(f, s, interp).Err? ==> r == CleanModelData(f, s, interp)
    ensures CleanModelData(f, s, interp).Ok? ==> r == Ok(Rename(CleanModelData(f, s, interp).value, inverse))
  {
    if !Has(f, s.rain) {
      return Err(KeyError(s.rain));
    }
    var d := SortIndex(f, true);
    d := NullRows(d, s.rain, s.noData);
    d := DropEmptyRows(d);
    assert d == Dropped(f, s);
    if !Has(d, s.airt) {
      return Err(KeyError(s.airt));
    }
    var before := d;
    d := MaskColumn(d, s.airt, s.noData);
    if !Has(d, s.sm) {
      return Err(KeyError(s.sm));
    }
    d := MaskColumn(d, s.sm, s.noData);
    assert d == MaskSeries(before, s);
    var c := FillSeries(d, s, interp);
    if c.Err? {
      return c;
    }
    return Ok(Rename(c.value, inverse));
  }

  // ---------------------------------------------------------------------------------
  // The forcing matrix (organize_model_data)

  /** The three forcing series names of `organize_model_data`. */
  const DefaultForcing := ("values_k1", "values_k2", "values_k3")

  /** `np.dstack((a, b, c))[0]` after the source's length check. The check is the chained
      comparison `len(a) != len(b) != len(c)`, which holds only when both neighbouring
      pairs differ (IOError); any other length mismatch is left to numpy (ValueError). */
  function StackColumns(a: seq<Field>, b: seq<Field>, c: seq<Field>): (r: Result<seq<(Field, Field, Field)>>)
    ensures r.Err? <==> !(|a| == |b| == |c|)
    ensures r.Err? ==> (r.error.IOError? <==> |a| != |b| && |b| != |c|)
    ensures r.Err? ==> r.error.IOError? || r.error.ValueError?
    ensures r.Ok? ==> |r.value| == |a| && forall i | 0 <= i < |a| :: r.value[i] == (a[i], b[i], c[i])
  {
    if |a| != |b| && |b| != |c| then Err(IOError("Check your dataframe obj"))
    else if !(|a| == |b| == |c|) then Err(ValueError("all the input array dimensions must match"))
    else Ok(seq(|a|, i requires 0 <= i < |a| => (a[i], b[i], c[i])))
  }

  /** The chained check misses the case where only the last length differs. */
  lemma ChainedCheckMisses()
    ensures StackColumns([Null], [Null], [Null, Null]) == Err(ValueError("all the input array dimensions must match"))
  {
  }

  /** Reading a column back out of the matrix gives the series that went in. */
  lemma StackColumnsUnstack(a: seq<Field>, b: seq<Field>, c: seq<Field>)
    requires |a| == |b| == |c|
    ensures var m := StackColumns(a, b, c).value;
      && seq(|m|, i requires 0 <= i < |m| => m[i].0) == a
      && seq(|m|, i requires 0 <= i < |m| => m[i].1) == b
      && seq(|m|, i requires 0 <= i < |m| => m[i].2) == c
  {
  }

  /** `organize_model_data`: IOError for the first absent series (rain, then air
      temperature, then soil moisture); otherwise row `i` of the matrix is the three
      values at row `i`, and the time axis is the frame's index. Columns of one frame are
      always as long as its index, so the length check never fires here. */
  function OrganizeModelData(f: Frame, tags: (string, string, string)): (r: Result<(seq<(Field, Field, Field)>, seq<Time>)>)
    requires Wf(f)
    ensures r.Err? <==> !Has(f, tags.0) || !Has(f, tags.1) || !Has(f, tags.2)
    ensures r.Err? ==> r.error.IOError?
    ensures r.Ok? ==> && |r.value.0| == |f.index| && r.value.1 == f.index
                      && forall i | 0 <= i < |f.index| ::
                           r.value.0[i] == (ValuesOf(f, tags.0)[i], ValuesOf(f, tags.1)[i], ValuesOf(f, tags.2)[i])
  {
    if !Has(f, tags.0) then Err(IOError("Check your dataframe obj"))
    else if !Has(f, tags.1) then Err(IOError("Check your dataframe obj"))
    else if !Has(f, tags.2) then Err(IOError("Check your dataframe obj"))
    else
      var m := StackColumns(ValuesOf(f, tags.0), ValuesOf(f, tags.1), ValuesOf(f, tags.2)).value;
      Ok((m, f.index))
  }

  // ---------------------------------------------------------------------------------
  // The parameter vector (organize_model_parameters)

  const DefaultParameterNames := ["w_p", "w_max", "alpha", "m2", "ks", "kc", "theta_min", "theta_max"]

  /** The names of `names` that the dictionary has, in their order. */
  function PresentNames(params: map<string, Field>, names: seq<string>): (r: seq<string>)
    ensures |r| <= |names|
    ensures forall n :: n in r <==> n in names && n in params
    ensures (forall i | 0 <= i < |names| :: names[i] in params) ==> r == names
  {
    if names == [] then []
    else if names[0] in params then [names[0]] + PresentNames(params, names[1..])
    else PresentNames(params, names[1..])
  }

  /** The values of the present names, in the order of the names. */
  function Selected(params: map<string, Field>, names: seq<string>): (r: seq<Field>)
    ensures |r| == |PresentNames(params, names)|
    ensures forall i | 0 <= i < |r| :: PresentNames(params, names)[i] in params && r[i] == params[PresentNames(params, names)[i]]
  {
    var ps := PresentNames(params, names);
    seq(|ps|, i requires 0 <= i < |ps| => params[ps[i]])
  }

  lemma PresentAppend(params: map<string, Field>, names: seq<string>, n: string)
    ensures PresentNames(params, names + [n]) == PresentNames(params, names) + (if n in params then [n] else [])
    decreases |names|
  {
    if names != [] {
      assert (names + [n])[1..] == names[1..] + [n];
      PresentAppend(params, names[1..], n);
    }
  }

  /** Selection follows the names one at a time. */
  lemma SelectedAppend(params: map<string, Field>, names: seq<string>, n: string)
    ensures Selected(params, names + [n]) == Selected(params, names) + (if n in params then [params[n]] else [])
  {
    PresentAppend(params, names, n);
    var a := Selected(params, names);
    var b := Selected(params, names + [n]);
    var e := if n in params then [params[n]] else [];
    assert |b| == |a + e|;
    forall i | 0 <= i < |b| ensures b[i] == (a + e)[i] {
      if i < |a| {
        assert PresentNames(params, names + [n])[i] == PresentNames(params, names)[i];
      }
    }
  }

  /** The parameter vector as a value: an IOError when a listed name is missing and the
      parameters are mandatory, the values of the present names otherwise. */
  function ParameterVector(params: map<string, Field>, names: Option<seq<string>>, mandatory: bool): Result<seq<Field>> {
    if mandatory && !AllListed(params, if names.Some? then names.value else DefaultParameterNames) then
      Err(IOError("Check your parameters dictionary"))
    else Ok(Selected(params, if names.Some? then names.value else DefaultParameterNames))
  }

  predicate AllListed(params: map<string, Field>, names: seq<string>) {
    forall i | 0 <= i < |names| :: names[i] in params
  }

  /** `organize_model_parameters`: the values of the listed names, in the list's order
      (the eight balance-model parameters by default). A missing name is an IOError when
      the parameters are mandatory, and is skipped otherwise. */
  method OrganizeModelParameters(params: map<string, Field>, names: Option<seq<string>>, mandatory: bool)
    returns (r: Result<seq<Field>>)
    ensures var ns := if names.Some? then names.value else DefaultParameterNames;
      && (r.Err? <==> mandatory && exists i | 0 <= i < |ns| :: ns[i] !in params)
      && (r.Err? ==> r.error.IOError?)
      && (r.Ok? ==> r.value == Selected(params, ns))
    ensures r == ParameterVector(params, names, mandatory)
  {
    var ns := if names.Some? then names.value else DefaultParameterNames;
    r := SelectParameters(params, ns, mandatory);
  }

  /** The loop of `organize_model_parameters` over a given list of names. */
  method SelectParameters(params: map<string, Field>, ns: seq<string>, mandatory: bool)
    returns (r: Result<seq<Field>>)
    ensures r.Err? <==> mandatory && !AllListed(params, ns)
    ensures r.Err? ==> r == Err(IOError("Check your parameters dictionary"))
    ensures r.Ok? ==> r.value == Selected(params, ns)
  {
    var values: seq<Field> := [];
    for i := 0 to |ns|
      invariant values == Selected(params, ns[..i])
      invariant mandatory ==> AllListed(params, ns[..i])
    {
      ParameterStep(params, ns, i);
      if ns[i] in params {
        values := values + [params[ns[i]]];
      } else if mandatory {
        return Err(IOError("Check your parameters dictionary"));
      }
    }
    assert ns[..|ns|] == ns;
    return Ok(values);
  }

  /** One iteration of the parameter loop. */
  lemma ParameterStep(params: map<string, Field>, ns: seq<string>, i: nat)
    requires i < |ns|
    ensures Selected(params, ns[..i + 1]) == Selected(params, ns[..i]) + (if ns[i] in params then [params[ns[i]]] else [])
    ensures AllListed(params, ns[..i + 1]) <==> AllListed(params, ns[..i]) && ns[i] in params
    ensures ns[i] !in params ==> !AllListed(params, ns)
  {
    assert ns[..i + 1] == ns[..i] + [ns[i]];
    SelectedAppend(params, ns[..i], ns[i]);
    assert ns[..i + 1][i] == ns[i];
  }

  /** With every name present, the vector has one value per name, in the names' order. */
  lemma SelectedAllPresent(params: map<string, Field>, names: seq<string>)
    requires forall i | 0 <= i < |names| :: names[i] in params
    ensures |Selected(params, names)| == |names|
    ensures forall i | 0 <= i < |names| :: Selected(params, names)[i] == params[names[i]]
  {
  }

  // ---------------------------------------------------------------------------------
  // The metrics record (organize_model_metrics)

  /** A one-row frame whose row is labelled `label`. */
  datatype Record = Record(name: string, entries: Dicts.Dict<Field>)

  /** The pairs of `d` whose keys are kept, in order. */
  function Restrict(d: Dicts.Dict<Field>, keep: set<string>): (r: Dicts.Dict<Field>)
    ensures Dicts.Keys(r) == Dicts.Keys(d) * keep
    ensures Dicts.Distinct(d) ==> Dicts.Distinct(r)
    ensures Dicts.Distinct(d) ==> forall k | k in Dicts.Keys(r) :: Dicts.Get(r, k) == Dicts.Get(d, k)
  {
    if d == [] then []
    else
      var rest := Restrict(d[1..], keep);
      assert d == [d[0]] + d[1..];
      Dicts.KeysCons(d[0], d[1..]);
      if d[0].0 in keep then
        Dicts.KeysCons(d[0], rest);
        [d[0]] + rest
      else rest
  }

  lemma RestrictAppend(d: Dicts.Dict<Field>, x: (string, Field), keep: set<string>)
    ensures Restrict(d + [x], keep) == Restrict(d, keep) + (if x.0 in keep then [x] else [])
    decreases |d|
  {
    if d != [] {
      assert (d + [x])[1..] == d[1..] + [x];
      RestrictAppend(d[1..], x, keep);
    }
  }

  /** `{**metrics, **registry, **time}`. */
  function Common(metrics: Dicts.Dict<Field>, registry: Dicts.Dict<Field>, time: Dicts.Dict<Field>): Dicts.Dict<Field> {
    Dicts.Merge(Dicts.Merge(metrics, registry), time)
  }

  /** `organize_model_metrics`: one row labelled 'info' holding the merged entries whose
      keys are listed in `fields` (every key when no fields are given), in the merged
      order. Dictionaries never repeat a key. */
  method OrganizeModelMetrics(metrics: Dicts.Dict<Field>, registry: Dicts.Dict<Field>,
                              time: Option<Dicts.Dict<Field>>, fields: Option<set<string>>)
    returns (r: Record)
    requires Dicts.Distinct(metrics) && Dicts.Distinct(registry)
    requires time.Some? ==> Dicts.Distinct(time.value)
    ensures var common := Common(metrics, registry, if time.Some? then time.value else []);
      && r.name == "info"
      && r.entries == Restrict(common, if fields.Some? then fields.value else Dicts.Keys(common))
  {
    var t := if time.Some? then time.value else [];
    var common := Common(metrics, registry, t);
    var keep := if fields.None? then Dicts.Keys(common) else fields.value;
    var filter := FilterKeys(common, keep);
    return Record("info", filter);
  }

  /** The dictionary comprehension of `organize_model_metrics`: the entries whose key is
      kept, in their order. */
  method FilterKeys(entries: Dicts.Dict<Field>, keep: set<string>) returns (filter: Dicts.Dict<Field>)
    ensures filter == Restrict(entries, keep)
  {
    filter := [];
    for i := 0 to |entries|
      invariant filter == Restrict(entries[..i], keep)
    {
      assert entries[..i + 1] == entries[..i] + [entries[i]];
      RestrictAppend(entries[..i], entries[i], keep);
      if entries[i].0 in keep {
        filter := filter + [entries[i]];
      }
    }
    assert entries[..|entries|] == entries;
  }

  /** The merged record keeps exactly the listed keys of the three sources, without
      repeats, and a key takes its value from the last source that has it: time over
      registry over metrics. */
  lemma MetricsRecordSpec(metrics: Dicts.Dict<Field>, registry: Dicts.Dict<Field>, time: Dicts.Dict<Field>,
                          keep: set<string>)
    requires Dicts.Distinct(metrics) && Dicts.Distinct(registry) && Dicts.Distinct(time)
    ensures var r := Restrict(Common(metrics, registry, time), keep);
      && Dicts.Distinct(r)
      && Dicts.Keys(r) == (Dicts.Keys(metrics) + Dicts.Keys(registry) + Dicts.Keys(time)) * keep
      && forall k | k in Dicts.Keys(r) ::
           Dicts.Get(r, k) == (if k in Dicts.Keys(time) then Dicts.Get(time, k)
                               else if k in Dicts.Keys(registry) then Dicts.Get(registry, k)
                               else Dicts.Get(metrics, k))
  {
    Dicts.MergeGet(metrics, registry);
    Dicts.MergeGet(Dicts.Merge(metrics, registry), time);
  }

  // ---------------------------------------------------------------------------------
  // Joining the simulation back (organize_model_results)

  const ResultsName := "values_model"

  /** `organize_model_results`: the simulated series, indexed by its times, is joined onto
      the common frame by time and the columns are renamed by `fields`. Building the series
      from values and times of different lengths is a ValueError, and so is a common frame
      that already has a `values_model` column. */
  function OrganizeModelResults(common: Frame, results: seq<Field>, times: seq<Time>, fields: map<string, string>): (r: Result<Frame>)
    requires Wf(common)
    ensures r.Err? <==> |results| != |times| || Has(common, ResultsName)
    ensures r.Err? ==> r.error.ValueError?
    ensures r.Ok? ==>
      && Wf(r.value) && r.value.index == common.index && r.value.attrs == common.attrs
      && |r.value.columns| == |common.columns| + 1
      && (forall c | 0 <= c < |common.columns| ::
            r.value.columns[c] == Column(RenameName(common.columns[c].name, fields), common.columns[c].values))
      && r.value.columns[|common.columns|].name == RenameName(ResultsName, fields)
      && forall k | 0 <= k < |common.index| ::
           r.value.columns[|common.columns|].values[k] == LookupAt(times, results, common.index[k])
  {
    if |results| != |times| then Err(ValueError("Length of values does not match length of index"))
    else
      var series := Frame(times, [Column(ResultsName, results)], map[]);
      assert Overlap(common.columns, series.columns) <==> Has(common, ResultsName) by {
        assert series.columns[0].name == ResultsName;
      }
      var j :- LeftJoin(common, series);
      Ok(Rename(j, fields))
  }
}
