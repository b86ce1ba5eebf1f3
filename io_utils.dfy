/** The small I/O helpers of the pipeline (sm_model/lib_utils_io.py): merging points into
    one table, the time window of a table, and the value maps used to fill path
    templates. The template filler itself (`fill_tags2string`) is not part of this model
    and is a parameter. */
module IoUtils {
  import opened Wrappers
  import opened Values
  import opened Frames
  import opened TimeUtils
  import Dicts

  /** Fills the tags of a template from a value map (`fill_tags2string`). */
  type Filler = (string, map<string, string>, map<string, Field>) -> string

  // ---------------------------------------------------------------------------------
  // merge_points_to_table

  /** The points that carry the variable, in order. */
  function Contributors(points: Dicts.Dict<Frame>, v: string): (r: Dicts.Dict<Frame>)
    ensures forall k | 0 <= k < |r| :: r[k] in points && Has(r[k].1, v)
    ensures forall k | 0 <= k < |points| :: Has(points[k].1, v) ==> points[k] in r
    ensures |r| <= |points|
  {
    if points == [] then []
    else
      var rest := Contributors(points[1..], v);
      assert forall k | 0 <= k < |points| :: k > 0 ==> points[k] == points[1..][k - 1];
      if Has(points[0].1, v) then [points[0]] + rest else rest
  }

  /** The column each contributing point adds: its values of the variable, named after
      the point. */
  function PointColumns(c: Dicts.Dict<Frame>, v: string): (r: seq<Column>)
    requires forall k | 0 <= k < |c| :: Has(c[k].1, v)
    ensures |r| == |c|
    ensures forall k | 0 <= k < |c| :: r[k] == Column(c[k].0, ValuesOf(c[k].1, v))
  {
    seq(|c|, k requires 0 <= k < |c| => Column(c[k].0, ValuesOf(c[k].1, v)))
  }

  /** Every contributing point has as many rows as the first. */
  predicate SameLengths(c: Dicts.Dict<Frame>) {
    forall k | 0 <= k < |c| :: |c[k].1.index| == |c[0].1.index|
  }

  /** `merge_points_to_table`. `None` stands for an argument that is not a dict (IOError).
      Points without the variable are skipped; the first point that has it gives the index
      and every later one is stored by position, so a different length raises ValueError.
      No point with the variable gives `None`. */
  method MergePointsToTable(arg: Option<Dicts.Dict<Frame>>, v: string) returns (r: Result<Option<Frame>>)
    requires arg.Some? ==> forall k | 0 <= k < |arg.value| :: Wf(arg.value[k].1)
    ensures arg.None? ==> r.Err? && r.error.IOError?
    ensures arg.Some? ==>
      var c := Contributors(arg.value, v);
      && (c == [] <==> r == Ok(None))
      && (c != [] ==>
            (r.Err? <==> !SameLengths(c))
            && (r.Err? ==> r.error.ValueError?)
            && (r.Ok? ==> r.value.Some? && r.value.value == Frame(c[0].1.index, PointColumns(c, v), map[])))
  {
    if arg.None? {
      return Err(IOError("File data frame must be a dictionary"));
    }
    var points := arg.value;
    var collection: Option<Frame> := None;
    ghost var seen: Dicts.Dict<Frame> := [];
    for i := 0 to |points|
      invariant seen == Contributors(points[..i], v)
      invariant Merging(collection, seen, v)
    {
      assert points[..i + 1] == points[..i] + [points[i]];
      ContributorsAppend(points[..i], points[i], v);
      ghost var grown := seen + (if Has(points[i].1, v) then [points[i]] else []);
      var next := MergeStep(collection, seen, points[i], v);
      if next.Err? {
        MergeMismatch(points, i + 1, grown, v);
        return next;
      }
      collection := next.value;
      seen := grown;
    }
    assert points[..|points|] == points;
    return Ok(collection);
  }

  /** What the loop of `merge_points_to_table` holds after the points `seen` that have the
      variable: nothing before the first, then the table of their columns on the first
      one's index, all of the same length. */
  predicate Merging(collection: Option<Frame>, seen: Dicts.Dict<Frame>, v: string)
    requires forall k | 0 <= k < |seen| :: Has(seen[k].1, v)
  {
    && (seen == [] <==> collection.None?)
    && (collection.Some? ==>
          collection.value == Frame(seen[0].1.index, PointColumns(seen, v), map[]) && SameLengths(seen))
  }

  /** One point of the loop: skipped without the variable, the start of the table when it
      is the first with it, otherwise a new column or, on a length mismatch, ValueError. */
  method MergeStep(collection: Option<Frame>, ghost seen: Dicts.Dict<Frame>, p: (string, Frame), v: string)
    returns (next: Result<Option<Frame>>)
    requires Wf(p.1)
    requires forall k | 0 <= k < |seen| :: Has(seen[k].1, v)
    requires Merging(collection, seen, v)
    ensures var grown := seen + (if Has(p.1, v) then [p] else []);
      && (forall k | 0 <= k < |grown| :: Has(grown[k].1, v))
      && (next.Ok? ==> Merging(next.value, grown, v))
      && (next.Err? ==> next.error.ValueError? && grown != [] && !SameLengths(grown))
  {
    if !Has(p.1, v) {
      assert seen + [] == seen;
      return Ok(collection);
    }
    assert forall k | 0 <= k < |seen| :: (seen + [p])[k] == seen[k];
    var values := ValuesOf(p.1, v);
    if collection.None? {
      MergeFirst(p, v);
      assert seen + [p] == [p];
      return Ok(Some(Frame(p.1.index, [Column(p.0, values)], map[])));
    }
    MergeNext(seen, p, v);
    if |values| != |collection.value.index| {
      return Err(ValueError("Length of values does not match length of index"));
    }
    return Ok(Some(collection.value.(columns := collection.value.columns + [Column(p.0, values)])));
  }

  /** The first contributing point starts the table. */
  lemma MergeFirst(p: (string, Frame), v: string)
    requires Has(p.1, v)
    ensures PointColumns([p], v) == [Column(p.0, ValuesOf(p.1, v))] && SameLengths([p])
  {
  }

  /** A later contributing point adds its column, and the lengths stay equal exactly when
      it has as many rows as the first. */
  lemma MergeNext(seen: Dicts.Dict<Frame>, p: (string, Frame), v: string)
    requires seen != [] && SameLengths(seen) && Has(p.1, v)
    requires forall k | 0 <= k < |seen| :: Has(seen[k].1, v)
    ensures (seen + [p])[0] == seen[0]
    ensures PointColumns(seen + [p], v) == PointColumns(seen, v) + [Column(p.0, ValuesOf(p.1, v))]
    ensures SameLengths(seen + [p]) <==> |p.1.index| == |seen[0].1.index|
  {
    PointColumnsAppend(seen, p, v);
    assert (seen + [p])[|seen|] == p;
    assert forall k | 0 <= k < |seen| :: (seen + [p])[k] == seen[k];
  }

  lemma PointColumnsAppend(c: Dicts.Dict<Frame>, p: (string, Frame), v: string)
    requires forall k | 0 <= k < |c| :: Has(c[k].1, v)
    requires Has(p.1, v)
    ensures PointColumns(c + [p], v) == PointColumns(c, v) + [Column(p.0, ValuesOf(p.1, v))]
  {
  }

  /** A length mismatch among the contributors of a prefix is one among all of them. */
  lemma MergeMismatch(points: Dicts.Dict<Frame>, n: nat, seen: Dicts.Dict<Frame>, v: string)
    requires n <= |points| && seen == Contributors(points[..n], v)
    requires seen != [] && !SameLengths(seen)
    ensures Contributors(points, v) != [] && !SameLengths(Contributors(points, v))
  {
    ContributorsPrefix(points, n, v);
    NotSameLengthsExtends(seen, Contributors(points, v));
  }

  lemma NotSameLengthsExtends(a: Dicts.Dict<Frame>, b: Dicts.Dict<Frame>)
    requires a != [] && a <= b && !SameLengths(a)
    ensures !SameLengths(b)
  {
    var k :| 0 <= k < |a| && |a[k].1.index| != |a[0].1.index|;
    assert b[k] == a[k] && b[0] == a[0];
  }

  lemma {:induction false} ContributorsAppend(points: Dicts.Dict<Frame>, p: (string, Frame), v: string)
    ensures Contributors(points + [p], v) == Contributors(points, v) + (if Has(p.1, v) then [p] else [])
    decreases |points|
  {
    if points == [] {
      assert [p][1..] == [];
    } else {
      assert (points + [p])[1..] == points[1..] + [p];
      ContributorsAppend(points[1..], p, v);
    }
  }

  /** The contributors of a prefix come first among the contributors of the whole. */
  lemma {:induction false} ContributorsPrefix(points: Dicts.Dict<Frame>, n: nat, v: string)
    requires n <= |points|
    ensures Contributors(points[..n], v) <= Contributors(points, v)
    decreases |points| - n
  {
    if n < |points| {
      ContributorsPrefix(points, n + 1, v);
      assert points[..n + 1] == points[..n] + [points[n]];
      ContributorsAppend(points[..n], points[n], v);
    } else {
      assert points[..n] == points;
    }
  }

  // ---------------------------------------------------------------------------------
  // select_table_by_times

  /** Positions from `from` on whose time lies in `[lo, hi]`, in increasing order. */
  function WindowPositions(index: seq<Time>, lo: Time, hi: Time, from: nat): (ps: seq<nat>)
    requires from <= |index|
    ensures forall k | 0 <= k < |ps| :: from <= ps[k] < |index| && lo <= index[ps[k]] <= hi
    ensures forall k, l | 0 <= k < l < |ps| :: ps[k] < ps[l]
    ensures forall p | from <= p < |index| && lo <= index[p] <= hi :: p in ps
    decreases |index| - from
  {
    if from == |index| then []
    else
      var rest := WindowPositions(index, lo, hi, from + 1);
      if lo <= index[from] <= hi then [from] + rest else rest
  }

  /** `select_table_by_times`: the rows between the earliest and the latest time of the
      range, inclusive, in their order, reversed when asked. An empty range raises
      IndexError. */
  function SelectTableByTimes(f: Frame, range: seq<Time>, reverse: bool): (r: Result<Frame>)
    requires Wf(f)
    ensures r.Err? <==> range == []
    ensures r.Ok? ==>
      var ps := WindowPositions(f.index, MinOf(range), MaxOf(range), 0);
      r.value == (if reverse then Reversed(SelectRows(f, ps)) else SelectRows(f, ps))
  {
    if range == [] then Err(IndexError("list index out of range"))
    else
      var ps := WindowPositions(f.index, MinOf(range), MaxOf(range), 0);
      var kept := SelectRows(f, ps);
      Ok(if reverse then Reversed(kept) else kept)
  }

  /** Reversing keeps the same times. */
  lemma ReversedTimes(f: Frame, x: Time)
    requires Wf(f)
    ensures x in Reversed(f).index <==> x in f.index
  {
    var r := Reversed(f);
    if x in f.index {
      var k :| 0 <= k < |f.index| && f.index[k] == x;
      assert r.index[|f.index| - 1 - k] == x;
    }
  }

  /** A row is kept exactly when its time lies between the ends of the range. */
  lemma SelectTableByTimesKeeps(f: Frame, range: seq<Time>, reverse: bool, t: Time)
    requires Wf(f) && range != []
    ensures var r := SelectTableByTimes(f, range, reverse).value;
      t in r.index <==> t in f.index && MinOf(range) <= t <= MaxOf(range)
  {
    var lo, hi := MinOf(range), MaxOf(range);
    var ps := WindowPositions(f.index, lo, hi, 0);
    var kept := SelectRows(f, ps);
    if reverse {
      ReversedTimes(kept, t);
    }
    if t in f.index && lo <= t <= hi {
      var p :| 0 <= p < |f.index| && f.index[p] == t;
      var k :| 0 <= k < |ps| && ps[k] == p;
      assert kept.index[k] == t;
    }
  }

  // ---------------------------------------------------------------------------------
  // Template values

  /** `fill_string_with_time`: every tag of the template is given the same time. */
  method FillStringWithTime(tmpl: string, time: Time, tags: map<string, string>, fill: Filler) returns (s: string)
    ensures s == fill(tmpl, tags, map k | k in tags :: Stamp(time))
  {
    var values: map<string, Field> := map[];
    var todo := tags.Keys;
    while todo != {}
      invariant todo <= tags.Keys
      invariant values == map k | k in tags.Keys - todo :: Stamp(time)
      decreases todo
    {
      var k :| k in todo;
      values := values[k := Stamp(time)];
      todo := todo - {k};
    }
    assert values == map k | k in tags :: Stamp(time);
    s := fill(tmpl, tags, values);
  }

  /** `fill_string_with_info`: the tags the info dict also has take its values; the others
      get none. An info argument that is not a dict (`None`) raises IOError. */
  method FillStringWithInfo(tmpl: string, info: Option<map<string, Field>>, tags: map<string, string>, fill: Filler)
    returns (r: Result<string>)
    ensures info.None? ==> r.Err? && r.error.IOError?
    ensures info.Some? ==> r == Ok(fill(tmpl, tags, map k | k in tags && k in info.value :: info.value[k]))
  {
    if info.None? {
      return Err(IOError("Name obj is not in dictionary format"));
    }
    var name := info.value;
    var values: map<string, Field> := map[];
    var todo := tags.Keys;
    while todo != {}
      invariant todo <= tags.Keys
      invariant values == map k | k in tags.Keys - todo && k in name :: name[k]
      decreases todo
    {
      var k :| k in todo;
      if k in name {
        values := values[k := name[k]];
      }
      todo := todo - {k};
    }
    assert values == map k | k in tags && k in name :: name[k];
    return Ok(fill(tmpl, tags, values));
  }

  /** The value maps of the two fillers: the time map has exactly the template's tags, and
      the info map those tags the info supplies. */
  lemma TemplateValueKeys(tags: map<string, string>, time: Time, info: map<string, Field>)
    ensures (map k | k in tags :: Stamp(time)).Keys == tags.Keys
    ensures (map k | k in tags && k in info :: info[k]).Keys == tags.Keys * info.Keys
  {
  }
}
