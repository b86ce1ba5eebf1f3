/** The two shapes of pandas data frame the pipeline uses: a time-indexed frame of
    columns (the hourly series) and a label-indexed table of rows (registry and parameter
    tables, and the contents of delimited files). */
module Frames {
  import opened Wrappers
  import opened Values

  datatype Column = Column(name: string, values: seq<Field>)

  /** A data frame indexed by time: one value per index entry in every column, plus the
      frame's `attrs` dictionary. */
  datatype Frame = Frame(index: seq<Time>, columns: seq<Column>, attrs: map<string, Field>)

  /** The shape pandas guarantees: every column is as long as the index. */
  predicate Wf(f: Frame) {
    forall c | 0 <= c < |f.columns| :: |f.columns[c].values| == |f.index|
  }

  function Names(cols: seq<Column>): seq<string> {
    seq(|cols|, i requires 0 <= i < |cols| => cols[i].name)
  }

  predicate Has(f: Frame, name: string) {
    name in Names(f.columns)
  }

  /** The position of the first column called `name` (how `frame[name]` is read here). */
  function ColumnIndex(cols: seq<Column>, name: string): (i: nat)
    requires name in Names(cols)
    ensures i < |cols| && cols[i].name == name
    ensures forall j | 0 <= j < i :: cols[j].name != name
  {
    if cols[0].name == name then 0
    else
      assert name in Names(cols[1..]) by {
        var k :| 0 <= k < |cols| && Names(cols)[k] == name;
        assert Names(cols[1..])[k - 1] == name;
      }
      1 + ColumnIndex(cols[1..], name)
  }

  function ValuesOf(f: Frame, name: string): seq<Field>
    requires Has(f, name)
  {
    f.columns[ColumnIndex(f.columns, name)].values
  }

  lemma ColumnIndexAppend(a: seq<Column>, b: seq<Column>, name: string)
    requires name in Names(a) || name in Names(b)
    ensures name in Names(a + b)
    ensures name in Names(a) ==> ColumnIndex(a + b, name) == ColumnIndex(a, name)
    ensures name !in Names(a) ==> ColumnIndex(a + b, name) == |a| + ColumnIndex(b, name)
  {
    var c := a + b;
    if name in Names(a) {
      var i := ColumnIndex(a, name);
      assert c[i] == a[i];
      assert Names(c)[i] == name;
      var j := ColumnIndex(c, name);
      assert j <= i;
      assert c[j] == a[j];
    } else {
      var i := ColumnIndex(b, name);
      assert c[|a| + i] == b[i];
      assert Names(c)[|a| + i] == name;
      var j := ColumnIndex(c, name);
      forall k | 0 <= k < |a| ensures c[k].name != name {
        assert c[k] == a[k];
        assert Names(a)[k] == a[k].name;
      }
      assert j >= |a|;
      assert c[j] == b[j - |a|];
    }
  }

  /** `frame.iloc[ps]`: the rows at positions `ps`, in that order, in every column. */
  function SelectRows(f: Frame, ps: seq<nat>): (r: Frame)
    requires Wf(f)
    requires forall k | 0 <= k < |ps| :: ps[k] < |f.index|
    ensures Wf(r) && |r.index| == |ps| && |r.columns| == |f.columns| && r.attrs == f.attrs
    ensures Names(r.columns) == Names(f.columns)
    ensures forall k | 0 <= k < |ps| :: r.index[k] == f.index[ps[k]]
    ensures forall c, k | 0 <= c < |f.columns| && 0 <= k < |ps| ::
      r.columns[c].values[k] == f.columns[c].values[ps[k]]
  {
    Frame(seq(|ps|, k requires 0 <= k < |ps| => f.index[ps[k]]),
          seq(|f.columns|, c requires 0 <= c < |f.columns| =>
            Column(f.columns[c].name, seq(|ps|, k requires 0 <= k < |ps| => f.columns[c].values[ps[k]]))),
          f.attrs)
  }

  /** Selecting rows reads every named column at the selected positions. */
  lemma SelectRowsValues(f: Frame, ps: seq<nat>, name: string)
    requires Wf(f) && Has(f, name)
    requires forall k | 0 <= k < |ps| :: ps[k] < |f.index|
    ensures Has(SelectRows(f, ps), name)
    ensures ColumnIndex(SelectRows(f, ps).columns, name) == ColumnIndex(f.columns, name)
    ensures forall k | 0 <= k < |ps| :: ValuesOf(SelectRows(f, ps), name)[k] == ValuesOf(f, name)[ps[k]]
  {
    var r := SelectRows(f, ps);
    var i := ColumnIndex(f.columns, name);
    assert Names(r.columns)[i] == name;
    var j := ColumnIndex(r.columns, name);
    assert Names(r.columns)[j] == Names(f.columns)[j];
  }

  function Iota(n: nat): (r: seq<nat>)
    ensures |r| == n && forall k | 0 <= k < n :: r[k] == k
  {
    seq(n, k requires 0 <= k < n => k)
  }

  function Backwards(n: nat): (r: seq<nat>)
    ensures |r| == n && forall k | 0 <= k < n :: r[k] == n - 1 - k
  {
    seq(n, k requires 0 <= k < n => n - 1 - k)
  }

  /** `frame.iloc[::-1]`. */
  function Reversed(f: Frame): Frame
    requires Wf(f)
  {
    SelectRows(f, Backwards(|f.index|))
  }

  /** `frame.drop(columns=[name])` once the column is known to exist: every column of that
      name goes. */
  function DropColumn(f: Frame, name: string): (r: Frame)
    ensures r.index == f.index && r.attrs == f.attrs && !Has(r, name)
    ensures Wf(f) ==> Wf(r)
    ensures forall c | c in r.columns :: c in f.columns
    ensures forall n | n != name :: Has(f, n) ==> Has(r, n) && ValuesOf(r, n) == ValuesOf(f, n)
  {
    var r := Frame(f.index, DropNamed(f.columns, name), f.attrs);
    assert Wf(f) ==> Wf(r) by {
      if Wf(f) {
        forall c | 0 <= c < |r.columns| ensures |r.columns[c].values| == |f.index| {
          assert r.columns[c] in f.columns;
        }
      }
    }
    r
  }

  function DropNamed(cols: seq<Column>, name: string): (r: seq<Column>)
    ensures name !in Names(r)
    ensures forall c | c in r :: c in cols
    ensures forall n | n != name && n in Names(cols) ::
      n in Names(r) && r[ColumnIndex(r, n)] == cols[ColumnIndex(cols, n)]
  {
    if cols == [] then []
    else
      var rest := DropNamed(cols[1..], name);
      DropNamedHead(cols, name, rest);
      if cols[0].name == name then rest else [cols[0]] + rest
  }

  /** The first column kept or dropped in front of what the rest of the columns give. */
  lemma DropNamedHead(cols: seq<Column>, name: string, rest: seq<Column>)
    requires cols != []
    requires name !in Names(rest)
    requires forall c | c in rest :: c in cols[1..]
    requires forall n | n != name && n in Names(cols[1..]) ::
      n in Names(rest) && rest[ColumnIndex(rest, n)] == cols[1..][ColumnIndex(cols[1..], n)]
    ensures var r := if cols[0].name == name then rest else [cols[0]] + rest;
      && name !in Names(r)
      && (forall c | c in r :: c in cols)
      && (forall n | n != name && n in Names(cols) ::
            n in Names(r) && r[ColumnIndex(r, n)] == cols[ColumnIndex(cols, n)])
  {
    var r := if cols[0].name == name then rest else [cols[0]] + rest;
    DropNamedHeadName(cols, name, rest);
    assert forall c | c in r :: c in cols by {
      forall c | c in r ensures c in cols {
        if c != cols[0] {
          assert c in rest;
          assert c in cols[1..];
        }
      }
    }
    forall n | n != name && n in Names(cols)
      ensures n in Names(r) && r[ColumnIndex(r, n)] == cols[ColumnIndex(cols, n)]
    {
      DropNamedHeadAt(cols, name, rest, n);
    }
  }

  lemma DropNamedHeadName(cols: seq<Column>, name: string, rest: seq<Column>)
    requires cols != [] && name !in Names(rest)
    ensures name !in Names(if cols[0].name == name then rest else [cols[0]] + rest)
  {
    var r := if cols[0].name == name then rest else [cols[0]] + rest;
    forall k | 0 <= k < |r| ensures Names(r)[k] != name {
      if cols[0].name != name && k > 0 {
        assert r[k] == rest[k - 1];
        assert Names(rest)[k - 1] == rest[k - 1].name;
      }
    }
  }

  lemma DropNamedHeadAt(cols: seq<Column>, name: string, rest: seq<Column>, n: string)
    requires cols != [] && n != name && n in Names(cols)
    requires n in Names(cols[1..]) ==>
      n in Names(rest) && rest[ColumnIndex(rest, n)] == cols[1..][ColumnIndex(cols[1..], n)]
    ensures var r := if cols[0].name == name then rest else [cols[0]] + rest;
      n in Names(r) && r[ColumnIndex(r, n)] == cols[ColumnIndex(cols, n)]
  {
    var r := if cols[0].name == name then rest else [cols[0]] + rest;
    if cols[0].name == n {
      assert Names(r)[0] == n;
    } else {
      var tail := cols[1..];
      assert n in Names(tail) by {
        var i :| 0 <= i < |cols| && Names(cols)[i] == n;
        assert Names(tail)[i - 1] == n;
      }
      assert ColumnIndex(cols, n) == 1 + ColumnIndex(tail, n);
      if cols[0].name != name {
        var j := ColumnIndex(rest, n);
        assert r[1..] == rest;
        assert Names(r)[1 + j] == n;
        assert ColumnIndex(r, n) == 1 + ColumnIndex(r[1..], n);
      }
    }
  }

  /** `frame[name] = values` for a column the frame does not have: it goes last. */
  function AddColumn(f: Frame, name: string, values: seq<Field>): Frame {
    f.(columns := f.columns + [Column(name, values)])
  }

  /** A column added under a new name leaves every existing column readable as before. */
  lemma AddColumnKeeps(f: Frame, name: string, values: seq<Field>, n: string)
    requires Has(f, n)
    ensures Has(AddColumn(f, name, values), n)
    ensures ValuesOf(AddColumn(f, name, values), n) == ValuesOf(f, n)
  {
    ColumnIndexAppend(f.columns, [Column(name, values)], n);
  }

  /** The added column is the one read under its name when the frame had none. */
  lemma AddColumnReads(f: Frame, name: string, values: seq<Field>)
    requires !Has(f, name)
    ensures Has(AddColumn(f, name, values), name)
    ensures ValuesOf(AddColumn(f, name, values), name) == values
  {
    assert Names([Column(name, values)])[0] == name;
    ColumnIndexAppend(f.columns, [Column(name, values)], name);
  }

  /** `frame[name] = values` for a column the frame has: the first column of that name
      takes the new values; names, order and every other column stay. */
  function SetValues(f: Frame, name: string, values: seq<Field>): (r: Frame)
    requires Has(f, name)
    ensures r.index == f.index && r.attrs == f.attrs && Names(r.columns) == Names(f.columns)
    ensures Has(r, name) && ValuesOf(r, name) == values
    ensures forall c | 0 <= c < |f.columns| && c != ColumnIndex(f.columns, name) :: r.columns[c] == f.columns[c]
    ensures Wf(f) && |values| == |f.index| ==> Wf(r)
  {
    var i := ColumnIndex(f.columns, name);
    var r := f.(columns := f.columns[i := Column(name, values)]);
    assert Names(r.columns) == Names(f.columns);
    assert ColumnIndex(r.columns, name) == i by {
      var j := ColumnIndex(r.columns, name);
      assert r.columns[i].name == name;
      assert forall k | 0 <= k < |f.columns| :: r.columns[k].name == f.columns[k].name;
    }
    r
  }

  /** Only the names decide which column a name reads. */
  lemma ColumnIndexNames(a: seq<Column>, b: seq<Column>, name: string)
    requires Names(a) == Names(b) && name in Names(a)
    ensures name in Names(b) && ColumnIndex(a, name) == ColumnIndex(b, name)
  {
    var i := ColumnIndex(a, name);
    var j := ColumnIndex(b, name);
    assert Names(a)[i] == Names(b)[i] && Names(a)[j] == Names(b)[j];
  }

  /** Setting one column leaves what every other name reads unchanged. */
  lemma SetValuesOther(f: Frame, name: string, values: seq<Field>, other: string)
    requires Has(f, name) && Has(f, other) && other != name
    ensures Has(SetValues(f, name, values), other)
    ensures ValuesOf(SetValues(f, name, values), other) == ValuesOf(f, other)
  {
    ColumnIndexNames(f.columns, SetValues(f, name, values).columns, other);
  }

  function RenameName(n: string, m: map<string, string>): string {
    if n in m then m[n] else n
  }

  /** `frame.rename(columns=m)`: listed names change, the others stay. */
  function Rename(f: Frame, m: map<string, string>): (r: Frame)
    ensures r.index == f.index && r.attrs == f.attrs && |r.columns| == |f.columns|
    ensures forall c | 0 <= c < |f.columns| ::
      r.columns[c] == Column(RenameName(f.columns[c].name, m), f.columns[c].values)
    ensures Wf(f) ==> Wf(r)
  {
    f.(columns := seq(|f.columns|, c requires 0 <= c < |f.columns| =>
      Column(RenameName(f.columns[c].name, m), f.columns[c].values)))
  }

  /** The first position of `t` in an index. */
  function FirstIndexOf(index: seq<Time>, t: Time): (r: Option<nat>)
    ensures r.None? <==> t !in index
    ensures r.Some? ==> (r.value < |index| && index[r.value] == t
                         && forall j | 0 <= j < r.value :: index[j] != t)
  {
    if index == [] then None
    else if index[0] == t then Some(0)
    else
      var r := FirstIndexOf(index[1..], t);
      if r.None? then None else Some(r.value + 1)
  }

  /** The value a left join puts at time `t`: the first row of the right side at `t`,
      or NaN when the right side has no row there. */
  function LookupAt(index: seq<Time>, values: seq<Field>, t: Time): Field {
    match FirstIndexOf(index, t)
    case None => Null
    case Some(j) => if j < |values| then values[j] else Null
  }

  function AlignColumn(onto: seq<Time>, index: seq<Time>, c: Column): (r: Column)
    requires |c.values| == |index|
    ensures r.name == c.name && |r.values| == |onto|
    ensures forall k | 0 <= k < |onto| :: r.values[k] == LookupAt(index, c.values, onto[k])
  {
    Column(c.name, seq(|onto|, k requires 0 <= k < |onto| => LookupAt(index, c.values, onto[k])))
  }

  predicate Overlap(a: seq<Column>, b: seq<Column>) {
    exists i | 0 <= i < |b| :: b[i].name in Names(a)
  }

  function AlignAll(onto: seq<Time>, index: seq<Time>, cols: seq<Column>): (r: seq<Column>)
    requires forall c | 0 <= c < |cols| :: |cols[c].values| == |index|
    ensures |r| == |cols| && Names(r) == Names(cols)
    ensures forall c | 0 <= c < |cols| :: r[c] == AlignColumn(onto, index, cols[c])
  {
    seq(|cols|, c requires 0 <= c < |cols| => AlignColumn(onto, index, cols[c]))
  }

  /** `left.join(right)`: every row of `left` stays, in its order, and each column of
      `right` is matched by time; columns present on both sides raise ValueError. */
  function LeftJoin(left: Frame, right: Frame): (r: Result<Frame>)
    requires Wf(left) && Wf(right)
    ensures r.Err? <==> Overlap(left.columns, right.columns)
    ensures r.Ok? ==> (Wf(r.value) && r.value.index == left.index && r.value.attrs == left.attrs
                       && r.value.columns == left.columns + AlignAll(left.index, right.index, right.columns))
  {
    if Overlap(left.columns, right.columns) then Err(ValueError("columns overlap"))
    else Ok(Frame(left.index, left.columns + AlignAll(left.index, right.index, right.columns), left.attrs))
  }

  /** When a join succeeds, and the names it leaves. */
  lemma JoinNames(left: Frame, right: Frame)
    requires Wf(left) && Wf(right)
    ensures LeftJoin(left, right).Ok? <==> forall i | 0 <= i < |right.columns| :: right.columns[i].name !in Names(left.columns)
    ensures LeftJoin(left, right).Ok? ==>
      LeftJoin(left, right).value.index == left.index
      && Names(LeftJoin(left, right).value.columns) == Names(left.columns) + Names(right.columns)
  {
    NamesAppend(left.columns, AlignAll(left.index, right.index, right.columns));
  }

  /** A column of the right side of a successful join reads, at every row of the result,
      the right side's first value at that row's time. */
  lemma LeftJoinValues(left: Frame, right: Frame, name: string)
    requires Wf(left) && Wf(right) && LeftJoin(left, right).Ok? && Has(right, name)
    ensures Has(LeftJoin(left, right).value, name)
    ensures ValuesOf(LeftJoin(left, right).value, name)
         == AlignColumn(left.index, right.index, right.columns[ColumnIndex(right.columns, name)]).values
  {
    var extra := AlignAll(left.index, right.index, right.columns);
    var i := ColumnIndex(right.columns, name);
    assert name !in Names(left.columns) by {
      assert right.columns[i].name == name;
    }
    assert name in Names(extra);
    ColumnIndexAppend(left.columns, extra, name);
    var k := ColumnIndex(extra, name);
    assert extra[k].name == right.columns[k].name;
    assert Names(right.columns)[k] == name;
    assert k == i by {
      assert Names(extra)[i] == name;
    }
  }

  /** A join keeps the columns already on the left. */
  lemma LeftJoinKeeps(left: Frame, right: Frame, name: string)
    requires Wf(left) && Wf(right) && LeftJoin(left, right).Ok? && Has(left, name)
    ensures Has(LeftJoin(left, right).value, name)
    ensures ValuesOf(LeftJoin(left, right).value, name) == ValuesOf(left, name)
  {
    ColumnIndexAppend(left.columns, AlignAll(left.index, right.index, right.columns), name);
  }

  /** Where the values of a column come from: looked up by time in a source series, or
      the row's own time. */
  datatype Feed = Lookup(index: seq<Time>, values: seq<Field>) | Stamps

  function Eval(feed: Feed, t: Time): Field {
    match feed
    case Lookup(index, values) => LookupAt(index, values, t)
    case Stamps => Stamp(t)
  }

  /** Column `name` of `f` holds, at every row, what `feed` gives for that row's time. */
  predicate Reads(f: Frame, name: string, feed: Feed) {
    Wf(f) && Has(f, name) && forall k | 0 <= k < |f.index| :: ValuesOf(f, name)[k] == Eval(feed, f.index[k])
  }

  /** The attributes play no part in how a column reads. */
  lemma ReadsIgnoresAttrs(f: Frame, attrs: map<string, Field>, name: string, feed: Feed)
    requires Reads(f, name, feed)
    ensures Reads(f.(attrs := attrs), name, feed)
  {
    var g := f.(attrs := attrs);
    assert g.columns == f.columns && g.index == f.index;
    assert ValuesOf(g, name) == ValuesOf(f, name);
  }

  lemma NamesAppend(a: seq<Column>, b: seq<Column>)
    ensures Names(a + b) == Names(a) + Names(b)
  {
  }

  /** Joining a frame brings its columns in, read by time. */
  lemma JoinReads(left: Frame, right: Frame, name: string)
    requires Wf(left) && Wf(right) && LeftJoin(left, right).Ok? && Has(right, name)
    ensures Reads(LeftJoin(left, right).value, name, Lookup(right.index, ValuesOf(right, name)))
  {
    LeftJoinValues(left, right, name);
  }

  /** Later joins leave earlier columns as they were. */
  lemma JoinKeepsReads(left: Frame, right: Frame, name: string, feed: Feed)
    requires Wf(right) && Reads(left, name, feed) && LeftJoin(left, right).Ok?
    ensures Reads(LeftJoin(left, right).value, name, feed)
  {
    LeftJoinKeeps(left, right, name);
  }

  lemma AddColumnKeepsReads(f: Frame, m: string, values: seq<Field>, name: string, feed: Feed)
    requires Reads(f, name, feed) && |values| == |f.index|
    ensures Reads(AddColumn(f, m, values), name, feed)
  {
    AddColumnKeeps(f, m, values, name);
  }

  /** Selecting rows moves each value with its time. */
  lemma SelectRowsKeepsReads(f: Frame, ps: seq<nat>, name: string, feed: Feed)
    requires Reads(f, name, feed) && forall k | 0 <= k < |ps| :: ps[k] < |f.index|
    ensures Reads(SelectRows(f, ps), name, feed)
  {
    SelectRowsValues(f, ps, name);
  }

  // ---------------------------------------------------------------------------------
  // Sorting by the index

  predicate InOrder(a: Time, b: Time, ascending: bool) {
    if ascending then a <= b else a >= b
  }

  predicate SortedBy(keys: seq<Time>, ps: seq<nat>, ascending: bool)
    requires forall k | 0 <= k < |ps| :: ps[k] < |keys|
  {
    forall i, j | 0 <= i < j < |ps| :: InOrder(keys[ps[i]], keys[ps[j]], ascending)
  }

  predicate Within(ps: seq<nat>, n: nat) {
    forall k | 0 <= k < |ps| :: ps[k] < n
  }

  function Insert(keys: seq<Time>, p: nat, s: seq<nat>, ascending: bool): (r: seq<nat>)
    requires p < |keys| && Within(s, |keys|)
    ensures Within(r, |keys|) && multiset(r) == multiset(s) + multiset{p}
  {
    if s == [] then [p]
    else if InOrder(keys[p], keys[s[0]], ascending) then [p] + s
    else
      assert s == [s[0]] + s[1..];
      [s[0]] + Insert(keys, p, s[1..], ascending)
  }

  /** A key placed before a sorted run that it precedes keeps the run sorted. */
  lemma ConsSorted(keys: seq<Time>, x: nat, s: seq<nat>, ascending: bool)
    requires x < |keys| && Within(s, |keys|) && SortedBy(keys, s, ascending)
    requires forall k | 0 <= k < |s| :: InOrder(keys[x], keys[s[k]], ascending)
    ensures SortedBy(keys, [x] + s, ascending)
  {
    var r := [x] + s;
    forall i, j | 0 <= i < j < |r| ensures InOrder(keys[r[i]], keys[r[j]], ascending) {
      assert r[j] == s[j - 1];
      if i > 0 {
        assert r[i] == s[i - 1];
      }
    }
  }

  lemma TailSorted(keys: seq<Time>, s: seq<nat>, ascending: bool)
    requires s != [] && Within(s, |keys|) && SortedBy(keys, s, ascending)
    ensures SortedBy(keys, s[1..], ascending)
    ensures forall k | 0 <= k < |s| - 1 :: InOrder(keys[s[0]], keys[s[1..][k]], ascending)
  {
    var t := s[1..];
    forall i, j | 0 <= i < j < |t| ensures InOrder(keys[t[i]], keys[t[j]], ascending) {
      assert t[i] == s[i + 1] && t[j] == s[j + 1];
    }
    forall k | 0 <= k < |t| ensures InOrder(keys[s[0]], keys[t[k]], ascending) {
      assert t[k] == s[k + 1];
    }
  }

  lemma {:induction false} InsertSorted(keys: seq<Time>, p: nat, s: seq<nat>, ascending: bool)
    requires p < |keys| && Within(s, |keys|) && SortedBy(keys, s, ascending)
    ensures SortedBy(keys, Insert(keys, p, s, ascending), ascending)
  {
    if s == [] {
    } else if InOrder(keys[p], keys[s[0]], ascending) {
      TailSorted(keys, s, ascending);
      assert s == [s[0]] + s[1..];
      ConsSorted(keys, p, s, ascending);
    } else {
      TailSorted(keys, s, ascending);
      var rest := Insert(keys, p, s[1..], ascending);
      InsertSorted(keys, p, s[1..], ascending);
      forall k | 0 <= k < |rest| ensures InOrder(keys[s[0]], keys[rest[k]], ascending) {
        var x := rest[k];
        assert x in multiset(rest);
        if x != p {
          assert x in multiset(s[1..]);
          var q :| 0 <= q < |s[1..]| && s[1..][q] == x;
        }
      }
      ConsSorted(keys, s[0], rest, ascending);
    }
  }

  /** Insertion sort of positions by their key: the order `sort_index` produces. */
  function SortPositions(keys: seq<Time>, ps: seq<nat>, ascending: bool): (r: seq<nat>)
    requires Within(ps, |keys|)
    ensures Within(r, |keys|) && multiset(r) == multiset(ps)
  {
    if ps == [] then []
    else
      assert ps == [ps[0]] + ps[1..];
      Insert(keys, ps[0], SortPositions(keys, ps[1..], ascending), ascending)
  }

  lemma {:induction false} SortPositionsSorted(keys: seq<Time>, ps: seq<nat>, ascending: bool)
    requires Within(ps, |keys|)
    ensures SortedBy(keys, SortPositions(keys, ps, ascending), ascending)
  {
    if ps != [] {
      SortPositionsSorted(keys, ps[1..], ascending);
      InsertSorted(keys, ps[0], SortPositions(keys, ps[1..], ascending), ascending);
    }
  }

  /** `frame.sort_index(ascending=...)`: a permutation of the rows ordered by time. */
  function SortIndex(f: Frame, ascending: bool): Frame
    requires Wf(f)
  {
    SelectRows(f, SortOrder(f.index, ascending))
  }

  function SortOrder(index: seq<Time>, ascending: bool): (r: seq<nat>)
    ensures Within(r, |index|) && |r| == |index|
  {
    var r := SortPositions(index, Iota(|index|), ascending);
    assert |r| == |multiset(r)| == |multiset(Iota(|index|))| == |index|;
    r
  }

  lemma {:induction false} IotaCount(n: nat, x: nat)
    ensures multiset(Iota(n))[x] == (if x < n then 1 else 0)
  {
    if n > 0 {
      IotaCount(n - 1, x);
      assert Iota(n) == Iota(n - 1) + [n - 1];
    } else {
      assert Iota(0) == [];
    }
  }

  /** A permutation of `0..n-1` repeats no position. */
  lemma PermutationDistinct(ps: seq<nat>, n: nat)
    requires multiset(ps) == multiset(Iota(n))
    ensures forall i, j | 0 <= i < j < |ps| :: ps[i] != ps[j]
  {
    forall i, j | 0 <= i < j < |ps| ensures ps[i] != ps[j] {
      if ps[i] == ps[j] {
        var x := ps[i];
        assert ps == ps[..j] + ps[j..];
        assert x in ps[..j] && x in ps[j..];
        assert multiset(ps)[x] == multiset(ps[..j])[x] + multiset(ps[j..])[x];
        IotaCount(n, x);
        assert false;
      }
    }
  }

  /** A permutation of `0..n-1` reaches every position. */
  lemma PermutationCovers(ps: seq<nat>, n: nat, p: nat)
    requires multiset(ps) == multiset(Iota(n)) && p < n
    ensures p in ps
  {
    IotaCount(n, p);
    assert p in multiset(ps);
  }

  /** Sorting by the index puts the rows in order and neither loses nor repeats a row. */
  lemma SortIndexSpec(f: Frame, ascending: bool)
    requires Wf(f)
    ensures var ps := SortOrder(f.index, ascending);
      SortIndex(f, ascending) == SelectRows(f, ps)
      && multiset(ps) == multiset(Iota(|f.index|))
      && forall i, j | 0 <= i < j < |ps| :: InOrder(SortIndex(f, ascending).index[i], SortIndex(f, ascending).index[j], ascending)
  {
    var ps := SortOrder(f.index, ascending);
    var s := SortIndex(f, ascending);
    SortPositionsSorted(f.index, Iota(|f.index|), ascending);
    forall i, j | 0 <= i < j < |ps| ensures InOrder(s.index[i], s.index[j], ascending) {
      assert s.index[i] == f.index[ps[i]];
    }
  }

  predicate Ordered(keys: seq<Time>, ascending: bool) {
    forall i, j | 0 <= i < j < |keys| :: InOrder(keys[i], keys[j], ascending)
  }

  /** Insertion sort leaves positions that are already in order where they are. */
  lemma {:induction false} SortPositionsSortedFixed(keys: seq<Time>, ps: seq<nat>, ascending: bool)
    requires Within(ps, |keys|) && SortedBy(keys, ps, ascending)
    ensures SortPositions(keys, ps, ascending) == ps
  {
    if ps != [] {
      var rest := ps[1..];
      assert SortedBy(keys, rest, ascending) by {
        forall i, j | 0 <= i < j < |rest| ensures InOrder(keys[rest[i]], keys[rest[j]], ascending) {
          assert rest[i] == ps[i + 1] && rest[j] == ps[j + 1];
        }
      }
      SortPositionsSortedFixed(keys, rest, ascending);
      if rest != [] {
        assert rest[0] == ps[1];
        assert InOrder(keys[ps[0]], keys[ps[1]], ascending);
      }
      assert ps == [ps[0]] + rest;
    }
  }

  /** Sorting a frame whose index is already in order changes nothing. */
  lemma SortIndexInOrder(f: Frame, ascending: bool)
    requires Wf(f) && Ordered(f.index, ascending)
    ensures SortIndex(f, ascending) == f
  {
    var ps := Iota(|f.index|);
    assert SortedBy(f.index, ps, ascending) by {
      forall i, j | 0 <= i < j < |ps| ensures InOrder(f.index[ps[i]], f.index[ps[j]], ascending) {
        assert ps[i] == i && ps[j] == j;
      }
    }
    SortPositionsSortedFixed(f.index, ps, ascending);
    var r := SortIndex(f, ascending);
    assert r.index == f.index;
    forall c | 0 <= c < |f.columns| ensures r.columns[c] == f.columns[c] {
      assert r.columns[c].values == f.columns[c].values;
    }
  }

  /** The order of the rows depends on the index alone. */
  lemma SortIndexSameIndex(f: Frame, g: Frame, ascending: bool)
    requires Wf(f) && Wf(g) && f.index == g.index
    ensures SortIndex(f, ascending).index == SortIndex(g, ascending).index
  {
  }

  /** Sorting a strictly increasing index newest first gives a strictly decreasing index
      with the same times. */
  lemma SortDescendingIncreasing(f: Frame)
    requires Wf(f) && forall i, j | 0 <= i < j < |f.index| :: f.index[i] < f.index[j]
    ensures var o := SortIndex(f, false);
      && |o.index| == |f.index|
      && (forall k | 0 <= k < |o.index| :: o.index[k] in f.index)
      && (forall k | 0 <= k < |f.index| :: f.index[k] in o.index)
      && (forall i, j | 0 <= i < j < |o.index| :: o.index[i] > o.index[j])
  {
    var ps := SortOrder(f.index, false);
    var o := SortIndex(f, false);
    SortIndexSpec(f, false);
    PermutationDistinct(ps, |f.index|);
    forall i, j | 0 <= i < j < |o.index| ensures o.index[i] > o.index[j] {
      assert o.index[i] == f.index[ps[i]] && o.index[j] == f.index[ps[j]];
      assert ps[i] != ps[j];
      if ps[i] < ps[j] {
        assert false;
      }
      assert f.index[ps[j]] < f.index[ps[i]];
    }
    forall k | 0 <= k < |f.index| ensures f.index[k] in o.index {
      PermutationCovers(ps, |f.index|, k);
      var q :| 0 <= q < |ps| && ps[q] == k;
      assert o.index[q] == f.index[k];
    }
  }

  // ---------------------------------------------------------------------------------
  // Label-indexed tables

  /** A table of rows, with the integer row labels pandas keeps through a boolean mask. */
  datatype Table = Table(columns: seq<string>, labels: seq<int>, rows: seq<seq<Field>>)

  predicate WfTable(t: Table) {
    |t.labels| == |t.rows| && forall i | 0 <= i < |t.rows| :: |t.rows[i]| == |t.columns|
  }

  function Position(names: seq<string>, name: string): (i: nat)
    requires name in names
    ensures i < |names| && names[i] == name && forall j | 0 <= j < i :: names[j] != name
  {
    if names[0] == name then 0 else 1 + Position(names[1..], name)
  }

  /** `table[name].values[i]` (the first column called `name`). */
  function Cell(t: Table, i: nat, name: string): Field
    requires WfTable(t) && i < |t.rows| && name in t.columns
  {
    t.rows[i][Position(t.columns, name)]
  }

  /** A freshly parsed table, labelled 0..n-1. */
  function FromRows(columns: seq<string>, rows: seq<seq<Field>>): Table {
    Table(columns, seq(|rows|, i requires 0 <= i < |rows| => i), rows)
  }

  lemma PositionAppend(names: seq<string>, extra: string, name: string)
    requires name in names
    ensures Position(names + [extra], name) == Position(names, name)
  {
    var i := Position(names, name);
    var j := Position(names + [extra], name);
    assert (names + [extra])[i] == name;
    assert j < |names| ==> (names + [extra])[j] == names[j];
  }

  /** `table[name] = cells`: an existing column (the first of that name) takes the cells;
      otherwise the column is appended. Labels and every other column stay. */
  function WithTableColumn(t: Table, name: string, cells: seq<Field>): (r: Table)
    requires WfTable(t) && |cells| == |t.rows|
    ensures WfTable(r) && r.labels == t.labels && |r.rows| == |t.rows|
    ensures r.columns == if name in t.columns then t.columns else t.columns + [name]
    ensures name in r.columns && forall i | 0 <= i < |t.rows| :: Cell(r, i, name) == cells[i]
    ensures forall n, i | n in t.columns && n != name && 0 <= i < |t.rows| :: n in r.columns && Cell(r, i, n) == Cell(t, i, n)
  {
    if name in t.columns then
      var p := Position(t.columns, name);
      var r := Table(t.columns, t.labels, seq(|t.rows|, i requires 0 <= i < |t.rows| => t.rows[i][p := cells[i]]));
      assert forall n | n in t.columns && n != name :: Position(t.columns, n) != p;
      r
    else
      var cs := t.columns + [name];
      var r := Table(cs, t.labels, seq(|t.rows|, i requires 0 <= i < |t.rows| => t.rows[i] + [cells[i]]));
      assert Position(cs, name) == |t.columns| by {
        assert cs[|t.columns|] == name;
      }
      forall n | n in t.columns ensures Position(cs, n) == Position(t.columns, n) {
        PositionAppend(t.columns, name, n);
      }
      r
  }

  /** `table.iloc[ps]`: the rows at positions `ps`, each with its label. */
  function KeepRows(t: Table, ps: seq<nat>): (r: Table)
    requires WfTable(t) && Within(ps, |t.rows|)
    ensures WfTable(r) && r.columns == t.columns && |r.rows| == |ps|
    ensures forall k | 0 <= k < |ps| :: r.labels[k] == t.labels[ps[k]] && r.rows[k] == t.rows[ps[k]]
  {
    Table(t.columns, seq(|ps|, k requires 0 <= k < |ps| => t.labels[ps[k]]),
          seq(|ps|, k requires 0 <= k < |ps| => t.rows[ps[k]]))
  }

  /** `table.loc[ids]`: the row carrying each label, in the order of `ids`; a label the
      table does not carry is a KeyError. */
  function Loc(t: Table, ids: seq<int>): (r: Result<Table>)
    requires WfTable(t)
    ensures r.Err? <==> exists k | 0 <= k < |ids| :: ids[k] !in t.labels
    ensures r.Err? ==> r.error.KeyError?
    ensures r.Ok? ==> WfTable(r.value) && r.value.columns == t.columns && r.value.labels == ids
                      && |r.value.rows| == |ids|
                      && forall k | 0 <= k < |ids| ::
                           && FirstIndexOf(t.labels, ids[k]).Some?
                           && r.value.rows[k] == t.rows[FirstIndexOf(t.labels, ids[k]).value]
  {
    if exists k | 0 <= k < |ids| :: ids[k] !in t.labels then Err(KeyError("not in index"))
    else
      var ps := seq(|ids|, k requires 0 <= k < |ids| => FirstIndexOf(t.labels, ids[k]).value);
      var r := KeepRows(t, ps);
      assert r.labels == ids;
      Ok(r)
  }

  /** On a table whose labels are its positions, `.loc` at positions is `.iloc`. */
  lemma LocByPosition(t: Table, ps: seq<nat>)
    requires WfTable(t) && t.labels == seq(|t.rows|, i requires 0 <= i < |t.rows| => i) && Within(ps, |t.rows|)
    ensures Loc(t, ps).Ok?
    ensures Loc(t, ps).value.rows == KeepRows(t, ps).rows
  {
    forall k | 0 <= k < |ps| ensures ps[k] in t.labels && FirstIndexOf(t.labels, ps[k]) == Some(ps[k]) {
      assert t.labels[ps[k]] == ps[k];
    }
  }
}
