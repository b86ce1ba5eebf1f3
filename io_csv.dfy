/** The delimited-file readers and writers (sm_model/lib_data_io_csv.py): the registry and
    parameter tables, and the hourly datasets. Parsing and printing the text itself is
    pandas' work and is not part of this model: a read starts from the parsed table and a
    write ends with the frame handed to `to_csv`. */
module IoCsv {
  import opened Wrappers
  import opened Values
  import opened Frames
  import opened StringUtils
  import opened TimeUtils
  import Dicts

  // ---------------------------------------------------------------------------------
  // Registry and parameter tables (read_registry_csv, read_parameters_csv)

  /** `table.columns = table.columns.str.strip()`. */
  function StripNames(t: Table): (r: Table)
    ensures r.labels == t.labels && r.rows == t.rows && |r.columns| == |t.columns|
    ensures forall c | 0 <= c < |t.columns| :: r.columns[c] == Strip(t.columns[c])
    ensures WfTable(t) ==> WfTable(r)
  {
    Table(seq(|t.columns|, c requires 0 <= c < |t.columns| => Strip(t.columns[c])), t.labels, t.rows)
  }

  /** The default tag of each row: `sanitize_string(name)`. */
  function SynthTags(t: Table, sanitize: Field -> string): (r: seq<Field>)
    requires WfTable(t) && "name" in t.columns
    ensures |r| == |t.rows|
  {
    seq(|t.rows|, i requires 0 <= i < |t.rows| => Text(sanitize(Cell(t, i, "name"))))
  }

  /** Rows whose `valid` cell equals 1, among the first `n`, in order. */
  function ValidPositions(t: Table, n: nat): (ps: seq<nat>)
    requires WfTable(t) && "valid" in t.columns && n <= |t.rows|
    ensures Within(ps, |t.rows|)
    ensures forall k | 0 <= k < |ps| :: ps[k] < n && IsOne(Cell(t, ps[k], "valid"))
    ensures forall i, j | 0 <= i < j < |ps| :: ps[i] < ps[j]
    ensures forall p | 0 <= p < n && IsOne(Cell(t, p, "valid")) :: p in ps
  {
    if n == 0 then []
    else ValidPositions(t, n - 1) + (if IsOne(Cell(t, n - 1, "valid")) then [n - 1] else [])
  }

  /** `table[table['valid'] == 1]` when the column exists: the rows keep their labels. */
  function ValidRows(t: Table): (r: Table)
    requires WfTable(t)
    ensures WfTable(r) && r.columns == t.columns
  {
    if "valid" in t.columns then KeepRows(t, ValidPositions(t, |t.rows|)) else t
  }

  /** The `code` column: an existing one printed with `str`, otherwise "1".."n". */
  function CodeCells(t: Table, repr: Field -> string): (r: seq<Field>)
    requires WfTable(t)
    ensures |r| == |t.rows|
  {
    if "code" in t.columns then
      seq(|t.rows|, i requires 0 <= i < |t.rows| => Text(PyStr(Cell(t, i, "code"), repr)))
    else
      seq(|t.rows|, i requires 0 <= i < |t.rows| => Text(NatToString(i + 1)))
  }

  /** `.str.strip()` on a tag cell of a column that holds strings; pandas gives NaN for a
      cell of it that is not a string. */
  function StripTag(c: Field): (r: Field)
    ensures r.Null? || (r.Text? && c.Text? && r.s == Strip(c.s))
  {
    match c
    case Text(s) => Text(Strip(s))
    case _ => Null
  }

  function StripTags(t: Table): (r: Table)
    requires WfTable(t)
    ensures WfTable(r) && r.labels == t.labels && |r.rows| == |t.rows|
  {
    if "tag" in t.columns then
      WithTableColumn(t, "tag", seq(|t.rows|, i requires 0 <= i < |t.rows| => StripTag(Cell(t, i, "tag"))))
    else t
  }

  /** The parsed table with its tag column: the file's own, or one synthesised from the
      names. */
  function Tagged(t: Table, sanitize: Field -> string): (r: Table)
    requires WfTable(t) && "name" in t.columns
    ensures WfTable(r) && r.labels == t.labels && |r.rows| == |t.rows| && "tag" in r.columns
    ensures r.columns == if "tag" in t.columns then t.columns else t.columns + ["tag"]
  {
    if "tag" in t.columns then t else WithTableColumn(t, "tag", SynthTags(t, sanitize))
  }

  function Coded(t: Table, repr: Field -> string): (r: Table)
    requires WfTable(t)
    ensures WfTable(r) && r.labels == t.labels && |r.rows| == |t.rows| && "code" in r.columns
  {
    WithTableColumn(t, "code", CodeCells(t, repr))
  }

  /** The cleaned table before the filters: tag synthesised if absent, valid rows, codes,
      stripped tags. */
  function Cleaned(t: Table, sanitize: Field -> string, repr: Field -> string): (r: Table)
    requires WfTable(t) && "name" in t.columns
    ensures WfTable(r) && "tag" in r.columns && "code" in r.columns
    ensures |r.rows| == |ValidRows(Tagged(t, sanitize)).rows|
  {
    var c := Coded(ValidRows(Tagged(t, sanitize)), repr);
    assert "tag" in c.columns;
    StripTags(c)
  }

  /** `str(value) in str(row)` for the first `n` rows: the enumerate positions that match. */
  function MatchPositions(t: Table, key: string, value: Field, repr: Field -> string, n: nat): (ps: seq<int>)
    requires WfTable(t) && key in t.columns && n <= |t.rows|
    ensures forall k | 0 <= k < |ps| :: 0 <= ps[k] < n && Contains(PyStr(Cell(t, ps[k], key), repr), PyStr(value, repr))
    ensures forall i, j | 0 <= i < j < |ps| :: ps[i] < ps[j]
    ensures forall p | 0 <= p < n && Contains(PyStr(Cell(t, p, key), repr), PyStr(value, repr)) :: p in ps
  {
    if n == 0 then []
    else
      MatchPositions(t, key, value, repr, n - 1)
      + (if Contains(PyStr(Cell(t, n - 1, key), repr), PyStr(value, repr)) then [n - 1] else [])
  }

  /** The substring filters in order; a filter whose key is not a column is ignored, and
      the matching positions are used as labels (`.loc`). */
  function ApplyFilters(t: Table, filters: Dicts.Dict<Field>, repr: Field -> string): (r: Result<Table>)
    requires WfTable(t)
    ensures r.Err? ==> r.error.KeyError?
    ensures r.Ok? ==> WfTable(r.value) && r.value.columns == t.columns
    decreases |filters|
  {
    if filters == [] then Ok(t)
    else if filters[0].0 in t.columns then
      var next :- Loc(t, MatchPositions(t, filters[0].0, filters[0].1, repr, |t.rows|));
      ApplyFilters(next, filters[1..], repr)
    else ApplyFilters(t, filters[1..], repr)
  }

  /** Whether `.str` accepts the file's tag column: pandas refuses a column with rows none
      of which is a string (integers, timestamps or only NaN), and accepts an empty one or
      one whose strings are mixed with other values. A synthesised tag column holds
      strings. */
  predicate StringTags(t: Table)
    requires WfTable(t)
  {
    "tag" !in t.columns || |t.rows| == 0 || exists i | 0 <= i < |t.rows| :: Cell(t, i, "tag").Text?
  }

  /** `read_registry_csv` and `read_parameters_csv` (the two have the same body): `raw` is
      the parsed file, `mapVars` stands for `map_vars_dframe` with the file's field map. */
  function ReadTable(raw: Table, mapVars: Table -> Table, sanitize: Field -> string,
                     repr: Field -> string, filters: Option<Dicts.Dict<Field>>): (r: Result<Table>)
    requires WfTable(raw) && WfTable(mapVars(StripNames(raw)))
    ensures r.Err? ==> r.error.KeyError? || r.error.AttributeError?
    ensures "name" !in mapVars(StripNames(raw)).columns ==> r == Err(KeyError("name"))
    ensures "name" in mapVars(StripNames(raw)).columns && !StringTags(mapVars(StripNames(raw))) ==>
      r.Err? && r.error.AttributeError?
    ensures filters.None? ==>
      (r.Ok? <==> "name" in mapVars(StripNames(raw)).columns && StringTags(mapVars(StripNames(raw))))
    ensures r.Err? && r.error.AttributeError? ==> !StringTags(mapVars(StripNames(raw)))
  {
    var t := mapVars(StripNames(raw));
    if "name" !in t.columns then Err(KeyError("name"))
    else if !StringTags(t) then Err(AttributeError("Can only use .str accessor with string values!"))
    else if filters.None? then Ok(Cleaned(t, sanitize, repr))
    else ApplyFilters(Cleaned(t, sanitize, repr), filters.value, repr)
  }

  /** The reader as the source runs it: tags appended one row at a time, and each filter's
      matching positions collected by a loop over the rows. */
  method ReadTableCsv(raw: Table, mapVars: Table -> Table, sanitize: Field -> string,
                      repr: Field -> string, filters: Option<Dicts.Dict<Field>>) returns (r: Result<Table>)
    requires WfTable(raw) && WfTable(mapVars(StripNames(raw)))
    ensures r == ReadTable(raw, mapVars, sanitize, repr, filters)
  {
    var t := mapVars(StripNames(raw));
    if "name" !in t.columns {
      return Err(KeyError("name"));
    }
    var tagged := t;
    if "tag" !in t.columns {
      var tags: seq<Field> := [];
      for i := 0 to |t.rows|
        invariant tags == SynthTags(t, sanitize)[..i]
      {
        tags := tags + [Text(sanitize(Cell(t, i, "name")))];
      }
      assert tags == SynthTags(t, sanitize);
      tagged := WithTableColumn(t, "tag", tags);
    }
    assert tagged == Tagged(t, sanitize);
    var valid := ValidRows(tagged);
    var coded := WithTableColumn(valid, "code", CodeCells(valid, repr));
    if !StringTags(t) {
      return Err(AttributeError("Can only use .str accessor with string values!"));
    }
    var cur := StripTags(coded);
    assert cur == Cleaned(t, sanitize, repr);
    if filters.None? {
      return Ok(cur);
    }
    var fs := filters.value;
    for i := 0 to |fs|
      invariant WfTable(cur)
      invariant ApplyFilters(Cleaned(t, sanitize, repr), fs, repr) == ApplyFilters(cur, fs[i..], repr)
    {
      assert fs[i..][1..] == fs[i + 1..];
      var key := fs[i].0;
      if key in cur.columns {
        var ids := Matching(cur, key, fs[i].1, repr);
        var next := Loc(cur, ids);
        if next.Err? {
          return Err(next.error);
        }
        cur := next.value;
      }
    }
    return Ok(cur);
  }

  /** The enumerate loop of one filter. */
  method Matching(t: Table, key: string, value: Field, repr: Field -> string) returns (ids: seq<int>)
    requires WfTable(t) && key in t.columns
    ensures ids == MatchPositions(t, key, value, repr, |t.rows|)
  {
    ids := [];
    for i := 0 to |t.rows|
      invariant ids == MatchPositions(t, key, value, repr, i)
    {
      if Contains(PyStr(Cell(t, i, key), repr), PyStr(value, repr)) {
        ids := ids + [i];
      }
    }
  }

  /** The rows of the parsed table that the cleaning keeps. */
  function KeptPositions(t: Table): (ps: seq<nat>)
    requires WfTable(t)
    ensures Within(ps, |t.rows|)
  {
    if "valid" in t.columns then ValidPositions(t, |t.rows|) else Iota(|t.rows|)
  }

  /** Tables that agree on `valid` have the same valid rows. */
  lemma {:induction false} ValidPositionsOther(t: Table, u: Table, n: nat)
    requires WfTable(t) && WfTable(u) && "valid" in t.columns && "valid" in u.columns
    requires n <= |t.rows| == |u.rows|
    requires forall i | 0 <= i < |t.rows| :: Cell(u, i, "valid") == Cell(t, i, "valid")
    ensures ValidPositions(u, n) == ValidPositions(t, n)
  {
    if n > 0 {
      ValidPositionsOther(t, u, n - 1);
    }
  }

  /** A cell of the tagged table. */
  lemma TaggedCell(t: Table, sanitize: Field -> string, n: string, i: nat)
    requires WfTable(t) && "name" in t.columns && (n in t.columns || n == "tag") && i < |t.rows|
    ensures n in Tagged(t, sanitize).columns
    ensures Cell(Tagged(t, sanitize), i, n)
      == if n == "tag" && "tag" !in t.columns then Text(sanitize(Cell(t, i, "name"))) else Cell(t, i, n)
  {
  }

  lemma KeepRowsCell(t: Table, ps: seq<nat>, n: string, k: nat)
    requires WfTable(t) && Within(ps, |t.rows|) && n in t.columns && k < |ps|
    ensures Cell(KeepRows(t, ps), k, n) == Cell(t, ps[k], n)
  {
  }

  /** The valid filter after tagging keeps the rows `KeptPositions` names. */
  lemma ValidRowsTagged(t: Table, sanitize: Field -> string)
    requires WfTable(t) && "name" in t.columns
    ensures ValidRows(Tagged(t, sanitize)) == KeepRows(Tagged(t, sanitize), KeptPositions(t))
  {
    var u := Tagged(t, sanitize);
    if "valid" in t.columns {
      forall i | 0 <= i < |t.rows| ensures Cell(u, i, "valid") == Cell(t, i, "valid") {
        TaggedCell(t, sanitize, "valid", i);
      }
      ValidPositionsOther(t, u, |t.rows|);
    }
  }

  /** A cell of the cleaned table, in terms of the parsed table's kept row. */
  lemma CleanedCell(t: Table, sanitize: Field -> string, repr: Field -> string, n: string, k: nat)
    requires WfTable(t) && "name" in t.columns && k < |KeptPositions(t)|
    requires n in t.columns || n == "tag" || n == "code"
    ensures var r := Cleaned(t, sanitize, repr);
      var p := KeptPositions(t)[k];
      && n in r.columns && k < |r.rows| && r.labels[k] == t.labels[p]
      && Cell(r, k, n) ==
           if n == "tag" then StripTag(Cell(Tagged(t, sanitize), p, "tag"))
           else if n == "code" then CodeCells(ValidRows(Tagged(t, sanitize)), repr)[k]
           else Cell(t, p, n)
  {
    var ps := KeptPositions(t);
    var u := Tagged(t, sanitize);
    var v := ValidRows(u);
    ValidRowsTagged(t, sanitize);
    var c := Coded(v, repr);
    if n != "code" {
      TaggedCell(t, sanitize, n, ps[k]);
      KeepRowsCell(u, ps, n, k);
      assert Cell(c, k, n) == Cell(v, k, n);
    }
    if n != "tag" {
      assert Cell(Cleaned(t, sanitize, repr), k, n) == Cell(c, k, n);
    }
  }

  /** The tag of a kept row is the file's tag, or `sanitize_string(name)` when the file has
      no tag column, stripped of surrounding whitespace. */
  lemma CleanedTags(t: Table, sanitize: Field -> string, repr: Field -> string, k: nat)
    requires WfTable(t) && "name" in t.columns && k < |KeptPositions(t)|
    ensures var r := Cleaned(t, sanitize, repr);
      var p := KeptPositions(t)[k];
      && "tag" in r.columns && k < |r.rows|
      && Cell(r, k, "tag") == StripTag(if "tag" in t.columns then Cell(t, p, "tag") else Text(sanitize(Cell(t, p, "name"))))
  {
    CleanedCell(t, sanitize, repr, "tag", k);
    TaggedCell(t, sanitize, "tag", KeptPositions(t)[k]);
  }

  lemma CodeCellsAt(v: Table, repr: Field -> string, k: nat)
    requires WfTable(v) && k < |v.rows|
    ensures "code" in v.columns ==> CodeCells(v, repr)[k] == Text(PyStr(Cell(v, k, "code"), repr))
    ensures "code" !in v.columns ==> CodeCells(v, repr)[k] == Text(NatToString(k + 1))
  {
  }

  /** The code of kept row `k`: the file's code printed with `str`, or the 1-based row
      number `k + 1` counted after the valid filter. */
  lemma CleanedCodes(t: Table, sanitize: Field -> string, repr: Field -> string, k: nat)
    requires WfTable(t) && "name" in t.columns && k < |KeptPositions(t)|
    ensures "code" in Cleaned(t, sanitize, repr).columns && k < |Cleaned(t, sanitize, repr).rows|
    ensures Cell(Cleaned(t, sanitize, repr), k, "code")
      == if "code" in t.columns then Text(PyStr(Cell(t, KeptPositions(t)[k], "code"), repr))
         else Text(NatToString(k + 1))
  {
    var v := ValidRows(Tagged(t, sanitize));
    CleanedCodeCell(t, sanitize, repr, k);
    CodeCellsAt(v, repr, k);
    if "code" in t.columns {
      KeptCodeCell(t, sanitize, k);
    }
  }

  /** The code of the cleaned table is the code column written over the kept rows. */
  lemma CleanedCodeCell(t: Table, sanitize: Field -> string, repr: Field -> string, k: nat)
    requires WfTable(t) && "name" in t.columns && k < |KeptPositions(t)|
    ensures var v := ValidRows(Tagged(t, sanitize));
      && WfTable(v) && k < |v.rows| && ("code" in v.columns <==> "code" in t.columns)
      && "code" in Cleaned(t, sanitize, repr).columns && k < |Cleaned(t, sanitize, repr).rows|
      && Cell(Cleaned(t, sanitize, repr), k, "code") == CodeCells(v, repr)[k]
  {
    CleanedCell(t, sanitize, repr, "code", k);
  }

  /** A kept row carries the file's code of the row it came from. */
  lemma KeptCodeCell(t: Table, sanitize: Field -> string, k: nat)
    requires WfTable(t) && "name" in t.columns && "code" in t.columns && k < |KeptPositions(t)|
    ensures var v := ValidRows(Tagged(t, sanitize));
      && "code" in v.columns && k < |v.rows| && KeptPositions(t)[k] < |t.rows|
      && Cell(v, k, "code") == Cell(t, KeptPositions(t)[k], "code")
  {
    var ps := KeptPositions(t);
    var u := Tagged(t, sanitize);
    ValidRowsTagged(t, sanitize);
    TaggedCell(t, sanitize, "code", ps[k]);
    KeepRowsCell(u, ps, "code", k);
  }

  /** Default codes never repeat. */
  lemma DefaultCodesDistinct(t: Table, sanitize: Field -> string, repr: Field -> string, i: nat, j: nat)
    requires WfTable(t) && "name" in t.columns && "code" !in t.columns
    requires i < j < |KeptPositions(t)|
    ensures i < j < |Cleaned(t, sanitize, repr).rows|
    ensures Cell(Cleaned(t, sanitize, repr), i, "code") != Cell(Cleaned(t, sanitize, repr), j, "code")
  {
    CleanedCodes(t, sanitize, repr, i);
    CleanedCodes(t, sanitize, repr, j);
    if NatToString(i + 1) == NatToString(j + 1) {
      NatToStringInjective(i + 1, j + 1);
    }
  }

  /** With a `valid` column, exactly the rows whose `valid` equals 1 are kept, in order. */
  lemma KeptPositionsValid(t: Table, p: nat)
    requires WfTable(t) && "valid" in t.columns
    ensures p in KeptPositions(t) <==> p < |t.rows| && IsOne(Cell(t, p, "valid"))
    ensures forall i, j | 0 <= i < j < |KeptPositions(t)| :: KeptPositions(t)[i] < KeptPositions(t)[j]
  {
  }

  /** The filters only select rows: every row of the result is a row they started from. */
  lemma {:induction false} ApplyFiltersRows(t: Table, filters: Dicts.Dict<Field>, repr: Field -> string)
    requires WfTable(t) && ApplyFilters(t, filters, repr).Ok?
    ensures forall k | 0 <= k < |ApplyFilters(t, filters, repr).value.rows| :: ApplyFilters(t, filters, repr).value.rows[k] in t.rows
    decreases |filters|
  {
    if filters != [] {
      if filters[0].0 in t.columns {
        var next := Loc(t, MatchPositions(t, filters[0].0, filters[0].1, repr, |t.rows|)).value;
        ApplyFiltersRows(next, filters[1..], repr);
      } else {
        ApplyFiltersRows(t, filters[1..], repr);
      }
    }
  }

  /** Every row that a read returns has `valid` equal to 1 when the file has a `valid`
      column, and a tag that is missing or free of surrounding whitespace. */
  lemma ReadTableRows(raw: Table, mapVars: Table -> Table, sanitize: Field -> string,
                      repr: Field -> string, filters: Option<Dicts.Dict<Field>>, k: nat)
    requires WfTable(raw) && WfTable(mapVars(StripNames(raw)))
    requires ReadTable(raw, mapVars, sanitize, repr, filters).Ok?
    requires k < |ReadTable(raw, mapVars, sanitize, repr, filters).value.rows|
    ensures var t := mapVars(StripNames(raw));
      var r := ReadTable(raw, mapVars, sanitize, repr, filters).value;
      && WfTable(r) && "tag" in r.columns && "code" in r.columns
      && ("valid" in t.columns ==> "valid" in r.columns && IsOne(Cell(r, k, "valid")))
      && (Cell(r, k, "tag").Null? || (Cell(r, k, "tag").Text? && Strip(Cell(r, k, "tag").s) == Cell(r, k, "tag").s))
  {
    var t := mapVars(StripNames(raw));
    var c := Cleaned(t, sanitize, repr);
    var r := ReadTable(raw, mapVars, sanitize, repr, filters).value;
    var q: nat;
    if filters.Some? {
      ApplyFiltersRows(c, filters.value, repr);
      q :| q < |c.rows| && c.rows[q] == r.rows[k];
    } else {
      q := k;
    }
    assert r.columns == c.columns && r.rows[k] == c.rows[q];
    CleanedRow(t, sanitize, repr, q);
    assert Cell(r, k, "tag") == Cell(c, q, "tag");
    if "valid" in t.columns {
      assert Cell(r, k, "valid") == Cell(c, q, "valid");
    }
  }

  /** A row of the cleaned table has `valid` equal to 1 when the file has a `valid`
      column, and a tag that is missing or free of surrounding whitespace. */
  lemma CleanedRow(t: Table, sanitize: Field -> string, repr: Field -> string, q: nat)
    requires WfTable(t) && "name" in t.columns && q < |Cleaned(t, sanitize, repr).rows|
    ensures var c := Cleaned(t, sanitize, repr);
      && ("valid" in t.columns ==> "valid" in c.columns && IsOne(Cell(c, q, "valid")))
      && (Cell(c, q, "tag").Null? || (Cell(c, q, "tag").Text? && Strip(Cell(c, q, "tag").s) == Cell(c, q, "tag").s))
  {
    ValidRowsTagged(t, sanitize);
    CleanedTags(t, sanitize, repr, q);
    var x := if "tag" in t.columns then Cell(t, KeptPositions(t)[q], "tag") else Text(sanitize(Cell(t, KeptPositions(t)[q], "name")));
    if x.Text? {
      StripIdempotent(x.s);
    }
    if "valid" in t.columns {
      CleanedCell(t, sanitize, repr, "valid", q);
      KeptPositionsValid(t, KeptPositions(t)[q]);
    }
  }

  /** The substring filter selects by the enumerate position through `.loc`, which reads
      it as a row label. Once the valid filter has dropped row 0, the labels are no longer
      positions: here the second row matches, and the row labelled 1 (the first, which does
      not match) is the one kept. */
  lemma FilterByLabelQuirk()
    ensures var t := Table(["tag"], [1, 2], [[Text("a")], [Text("b")]]);
      ApplyFilters(t, [("tag", Text("b"))], f => "") == Ok(Table(["tag"], [1], [[Text("a")]]))
  {
    var repr: Field -> string := f => "";
    var kept := Table(["tag"], [1], [[Text("a")]]);
    QuirkMatches(repr);
    QuirkLoc();
    assert ApplyFilters(kept, [], repr) == Ok(kept);
  }

  /** In the example table only the second row's tag contains "b". */
  lemma QuirkMatches(repr: Field -> string)
    ensures MatchPositions(Table(["tag"], [1, 2], [[Text("a")], [Text("b")]]), "tag", Text("b"), repr, 2) == [1]
  {
    var t := Table(["tag"], [1, 2], [[Text("a")], [Text("b")]]);
    assert Cell(t, 0, "tag") == Text("a") && Cell(t, 1, "tag") == Text("b");
    assert !Contains("a", "b") by {
      assert "a"[..1] == "a" && "a"[0] != "b"[0];
      assert "a"[1..] == "";
    }
    assert Contains("b", "b") by {
      assert "b"[0..1] == "b";
    }
  }

  /** Reading label 1 of the example table gives its first row. */
  lemma QuirkLoc()
    ensures Loc(Table(["tag"], [1, 2], [[Text("a")], [Text("b")]]), [1]) == Ok(Table(["tag"], [1], [[Text("a")]]))
  {
    var t := Table(["tag"], [1, 2], [[Text("a")], [Text("b")]]);
    assert FirstIndexOf(t.labels, 1) == Some(0);
    assert 1 in t.labels;
    assert seq(1, k requires 0 <= k < 1 => FirstIndexOf(t.labels, [1][k]).value) == [0];
    assert KeepRows(t, [0]) == Table(["tag"], [1], [[Text("a")]]);
  }

  /** On a freshly parsed table (labels 0..n-1) with no valid filter, a filter keeps exactly
      the rows that match, in order. */
  lemma FilterOnPositions(t: Table, key: string, value: Field, repr: Field -> string)
    requires WfTable(t) && key in t.columns && t.labels == seq(|t.rows|, i requires 0 <= i < |t.rows| => i)
    ensures var ps := MatchPositions(t, key, value, repr, |t.rows|);
      && ApplyFilters(t, [(key, value)], repr).Ok?
      && ApplyFilters(t, [(key, value)], repr).value.rows == seq(|ps|, k requires 0 <= k < |ps| => t.rows[ps[k]])
  {
    var ps := MatchPositions(t, key, value, repr, |t.rows|);
    var qs := seq(|ps|, k requires 0 <= k < |ps| => ps[k] as nat);
    assert qs == ps;
    LocByPosition(t, qs);
    assert [(key, value)][1..] == [];
  }

  // ---------------------------------------------------------------------------------
  // Hourly datasets (read_datasets_csv, write_datasets_csv)

  /** The columns of a parsed table, renamed by `m`. */
  function TableColumns(t: Table, m: map<string, string>): (r: seq<Column>)
    requires WfTable(t)
    ensures |r| == |t.columns|
    ensures forall c | 0 <= c < |t.columns| :: r[c].name == RenameName(t.columns[c], m) && |r[c].values| == |t.rows|
    ensures forall c, i | 0 <= c < |t.columns| && 0 <= i < |t.rows| :: r[c].values[i] == t.rows[i][c]
  {
    seq(|t.columns|, c requires 0 <= c < |t.columns| =>
      Column(RenameName(t.columns[c], m), seq(|t.rows|, i requires 0 <= i < |t.rows| => t.rows[i][c])))
  }

  /** The keyword arguments of `read_datasets_csv` that shape the frame: the optional time
      window (floored to `rounding`, stepped by `frequency`, both in minutes) and the sort. */
  datatype ReadSettings = ReadSettings(start: Option<Time>, end: Option<Time>, rounding: int, frequency: int,
                                       ascending: bool, sort: bool)

  /** The callers pass no window: rows come as read, newest first. */
  const DefaultRead := ReadSettings(None, None, Hour, Hour, false, true)

  /** The rows before sorting: the frame indexed by its parsed `time` column, or, with a
      window, the window's grid left-joined with it. */
  function Windowed(f: Frame, s: ReadSettings): (r: Result<Frame>)
    requires Wf(f) && s.rounding > 0 && s.frequency > 0
    ensures r.Err? <==> s.start.Some? && s.end.None?
    ensures r.Err? ==> r.error.ValueError?
    ensures r.Ok? ==> Wf(r.value) && Names(r.value.columns) == Names(f.columns)
    ensures r.Ok? && s.start.None? ==> r.value == f
    ensures r.Ok? && s.start.Some? ==>
      r.value.index == DateRange(Floor(s.start.value, s.rounding), Floor(s.end.value, s.rounding), s.frequency)
  {
    if s.start.None? then Ok(f)
    else if s.end.None? then Err(ValueError("Neither `start` nor `end` can be NaT"))
    else
      var grid := DateRange(Floor(s.start.value, s.rounding), Floor(s.end.value, s.rounding), s.frequency);
      var empty := Frame(grid, [], map[]);
      assert !Overlap(empty.columns, f.columns);
      JoinNames(empty, f);
      Ok(LeftJoin(empty, f).value)
  }

  /** `read_datasets_csv` from the parsed file `raw`: columns renamed by `inverse` (the
      inverted field map), rows indexed by the `time` column (KeyError without one,
      ValueError when a cell does not parse as a time, as `pd.DatetimeIndex` requires), windowed, sorted, and the attributes set to
      the registry fields plus `time_reference`. The window test looks at `time_start`
      twice, so a start without an end reaches the grid with no end (ValueError). */
  function ReadDatasets(raw: Table, inverse: map<string, string>, registry: Option<map<string, Field>>,
                        reference: Field, s: ReadSettings, parse: Field -> Option<Time>): (r: Result<Frame>)
    requires WfTable(raw) && s.rounding > 0 && s.frequency > 0
    ensures var cols := TableColumns(raw, inverse);
      && ("time" !in Names(cols) ==> r == Err(KeyError("time")))
      && (r.Err? <==> "time" !in Names(cols)
                      || ParseAll(cols[ColumnIndex(cols, "time")].values, parse).None?
                      || (s.start.Some? && s.end.None?))
      && (r.Ok? ==> && Wf(r.value) && Names(r.value.columns) == Names(cols)
                    && r.value.attrs == (if registry.Some? then registry.value else map[])["time_reference" := reference]
                    && (s.sort ==> forall i, j | 0 <= i < j < |r.value.index| :: InOrder(r.value.index[i], r.value.index[j], s.ascending)))
  {
    var cols := TableColumns(raw, inverse);
    if "time" !in Names(cols) then Err(KeyError("time"))
    else
      match ParseAll(cols[ColumnIndex(cols, "time")].values, parse)
      case None => Err(ValueError("time column does not parse"))
      case Some(times) =>
        var f := Frame(times, cols, map[]);
        var w :- Windowed(f, s);
        var sorted := if s.sort then SortIndex(w, s.ascending) else w;
        SortIndexSpec(w, s.ascending);
        Ok(sorted.(attrs := (if registry.Some? then registry.value else map[])["time_reference" := reference]))
  }

  /** Without a window, the frame read holds the file's rows: row k is file row `ps[k]` of
      a permutation `ps` (the time sort, or the file's order without one), indexed by its
      parsed `time` cell, every cell moving with its row (column c of `cols` holds the
      file's column c, as `TableColumns` says). */
  lemma ReadDatasetsRows(raw: Table, inverse: map<string, string>, registry: Option<map<string, Field>>,
                         reference: Field, s: ReadSettings, parse: Field -> Option<Time>)
    requires WfTable(raw) && s.rounding > 0 && s.frequency > 0 && s.start.None?
    requires ReadDatasets(raw, inverse, registry, reference, s, parse).Ok?
    ensures var r := ReadDatasets(raw, inverse, registry, reference, s, parse).value;
      var cols := TableColumns(raw, inverse);
      var times := ParseAll(cols[ColumnIndex(cols, "time")].values, parse).value;
      var ps := if s.sort then SortOrder(times, s.ascending) else Iota(|times|);
      && |times| == |raw.rows| && |r.index| == |raw.rows| && |r.columns| == |raw.columns|
      && multiset(ps) == multiset(Iota(|raw.rows|))
      && (forall k | 0 <= k < |ps| :: r.index[k] == times[ps[k]])
      && (forall c | 0 <= c < |raw.columns| :: r.columns[c].name == RenameName(raw.columns[c], inverse))
      && (forall c, k | 0 <= c < |raw.columns| && 0 <= k < |ps| :: r.columns[c].values[k] == cols[c].values[ps[k]])
  {
    var cols := TableColumns(raw, inverse);
    var times := ParseAll(cols[ColumnIndex(cols, "time")].values, parse).value;
    WindowedNone(Frame(times, cols, map[]), s);
    ReadDatasetsSorted(raw, inverse, registry, reference, s, parse);
    ParsedRows(raw, inverse, times, ReadDatasets(raw, inverse, registry, reference, s, parse).value, s.sort, s.ascending);
  }

  /** The parsed frame, sorted on request: its rows follow a permutation `ps` of the file's
      rows, each indexed by its parsed time, every cell moving with its row. */
  lemma ParsedRows(raw: Table, inverse: map<string, string>, times: seq<Time>, r: Frame, sort: bool, ascending: bool)
    requires WfTable(raw) && |times| == |raw.rows|
    requires var f := Frame(times, TableColumns(raw, inverse), map[]);
      r == (if sort then SortIndex(f, ascending) else f).(attrs := r.attrs)
    ensures var cols := TableColumns(raw, inverse);
      var ps := if sort then SortOrder(times, ascending) else Iota(|times|);
      && |r.index| == |raw.rows| && |r.columns| == |raw.columns|
      && multiset(ps) == multiset(Iota(|raw.rows|))
      && (forall k | 0 <= k < |ps| :: r.index[k] == times[ps[k]])
      && (forall c | 0 <= c < |raw.columns| :: r.columns[c].name == RenameName(raw.columns[c], inverse))
      && (forall c, k | 0 <= c < |raw.columns| && 0 <= k < |ps| :: r.columns[c].values[k] == cols[c].values[ps[k]])
  {
    SortedRows(Frame(times, TableColumns(raw, inverse), map[]), r, sort, ascending);
  }

  /** With both ends given, the frame read holds the window's grid in sorted order, and
      every cell is the file's cell at the first row with that time, or Null when no row
      has it. */
  lemma ReadDatasetsWindow(raw: Table, inverse: map<string, string>, registry: Option<map<string, Field>>,
                           reference: Field, s: ReadSettings, parse: Field -> Option<Time>)
    requires WfTable(raw) && s.rounding > 0 && s.frequency > 0 && s.start.Some? && s.end.Some?
    requires ReadDatasets(raw, inverse, registry, reference, s, parse).Ok?
    ensures var r := ReadDatasets(raw, inverse, registry, reference, s, parse).value;
      var cols := TableColumns(raw, inverse);
      var times := ParseAll(cols[ColumnIndex(cols, "time")].values, parse).value;
      var grid := DateRange(Floor(s.start.value, s.rounding), Floor(s.end.value, s.rounding), s.frequency);
      var ps := if s.sort then SortOrder(grid, s.ascending) else Iota(|grid|);
      && |times| == |raw.rows| && |r.columns| == |raw.columns|
      && (forall c | 0 <= c < |raw.columns| :: r.columns[c].name == RenameName(raw.columns[c], inverse))
      && WindowRows(grid, times, cols, r, s.sort, s.ascending)
  {
    var cols := TableColumns(raw, inverse);
    var times := ParseAll(cols[ColumnIndex(cols, "time")].values, parse).value;
    WindowedGrid(Frame(times, cols, map[]), s);
    ReadDatasetsSorted(raw, inverse, registry, reference, s, parse);
    WindowedRows(raw, inverse, times, ReadDatasets(raw, inverse, registry, reference, s, parse).value, s);
  }

  /** The window of parsed rows, sorted on request, in terms of the file's columns. */
  lemma WindowedRows(raw: Table, inverse: map<string, string>, times: seq<Time>, r: Frame, s: ReadSettings)
    requires WfTable(raw) && |times| == |raw.rows| && s.rounding > 0 && s.frequency > 0
    requires s.start.Some? && s.end.Some?
    requires var grid := DateRange(Floor(s.start.value, s.rounding), Floor(s.end.value, s.rounding), s.frequency);
      var w := Frame(grid, AlignAll(grid, times, TableColumns(raw, inverse)), map[]);
      r == (if s.sort then SortIndex(w, s.ascending) else w).(attrs := r.attrs)
    ensures var cols := TableColumns(raw, inverse);
      var grid := DateRange(Floor(s.start.value, s.rounding), Floor(s.end.value, s.rounding), s.frequency);
      && |r.columns| == |raw.columns|
      && (forall c | 0 <= c < |raw.columns| :: r.columns[c].name == RenameName(raw.columns[c], inverse))
      && WindowRows(grid, times, cols, r, s.sort, s.ascending)
  {
    var cols := TableColumns(raw, inverse);
    var grid := DateRange(Floor(s.start.value, s.rounding), Floor(s.end.value, s.rounding), s.frequency);
    WindowCells(grid, times, cols, r, s.sort, s.ascending);
  }

  /** A frame holding the rows of a window: the grid's times under the sorting permutation
      `ps` (the identity when not sorting), and in each column the first value read at its
      row's time, or Null. */
  predicate WindowRows(grid: seq<Time>, times: seq<Time>, cols: seq<Column>, r: Frame, sort: bool, ascending: bool)
    requires forall c | 0 <= c < |cols| :: |cols[c].values| == |times|
  {
    var ps := if sort then SortOrder(grid, ascending) else Iota(|grid|);
    && |r.index| == |grid| && |r.columns| == |cols|
    && multiset(ps) == multiset(Iota(|grid|))
    && (forall k | 0 <= k < |ps| :: r.index[k] == grid[ps[k]])
    && (forall c | 0 <= c < |cols| :: |r.columns[c].values| == |grid|)
    && (forall c, k | 0 <= c < |cols| && 0 <= k < |ps| ::
          r.columns[c].values[k] == LookupAt(times, cols[c].values, grid[ps[k]]))
  }

  /** The grid of a window left-joined with the columns read, then sorted on request: the
      rows follow a permutation `ps` of the grid, and each cell is the first value read at
      its row's time. */
  lemma WindowCells(grid: seq<Time>, times: seq<Time>, cols: seq<Column>, r: Frame, sort: bool, ascending: bool)
    requires forall c | 0 <= c < |cols| :: |cols[c].values| == |times|
    requires var w := Frame(grid, AlignAll(grid, times, cols), map[]);
      r == (if sort then SortIndex(w, ascending) else w).(attrs := r.attrs)
    ensures WindowRows(grid, times, cols, r, sort, ascending)
    ensures forall c | 0 <= c < |cols| :: r.columns[c].name == cols[c].name
  {
    var w := Frame(grid, AlignAll(grid, times, cols), map[]);
    SortedRows(w, r, sort, ascending);
    var ps := if sort then SortOrder(grid, ascending) else Iota(|grid|);
    forall c, k | 0 <= c < |cols| && 0 <= k < |ps|
      ensures r.columns[c].values[k] == LookupAt(times, cols[c].values, grid[ps[k]])
    {
      assert w.columns[c] == AlignColumn(grid, times, cols[c]);
    }
  }

  /** A frame read is the window of the parsed frame, sorted on request, with the
      registry attrs. */
  lemma ReadDatasetsSorted(raw: Table, inverse: map<string, string>, registry: Option<map<string, Field>>,
                           reference: Field, s: ReadSettings, parse: Field -> Option<Time>)
    requires WfTable(raw) && s.rounding > 0 && s.frequency > 0
    requires ReadDatasets(raw, inverse, registry, reference, s, parse).Ok?
    ensures var cols := TableColumns(raw, inverse);
      var times := ParseAll(cols[ColumnIndex(cols, "time")].values, parse).value;
      var w := Windowed(Frame(times, cols, map[]), s).value;
      var r := ReadDatasets(raw, inverse, registry, reference, s, parse).value;
      r == (if s.sort then SortIndex(w, s.ascending) else w).(attrs := r.attrs)
  {
  }

  /** Without a start there is no window. */
  lemma WindowedNone(f: Frame, s: ReadSettings)
    requires Wf(f) && s.rounding > 0 && s.frequency > 0 && s.start.None?
    ensures Windowed(f, s) == Ok(f)
  {
  }

  /** The window is the grid left-joined with the frame read. */
  lemma WindowedGrid(f: Frame, s: ReadSettings)
    requires Wf(f) && s.rounding > 0 && s.frequency > 0 && s.start.Some? && s.end.Some?
    ensures var grid := DateRange(Floor(s.start.value, s.rounding), Floor(s.end.value, s.rounding), s.frequency);
      Windowed(f, s) == Ok(Frame(grid, AlignAll(grid, f.index, f.columns), map[]))
  {
    var grid := DateRange(Floor(s.start.value, s.rounding), Floor(s.end.value, s.rounding), s.frequency);
    var empty := Frame(grid, [], map[]);
    assert !Overlap(empty.columns, f.columns);
    assert [] + AlignAll(grid, f.index, f.columns) == AlignAll(grid, f.index, f.columns);
  }

  /** The optional sort of `read_datasets_csv` takes the rows by a permutation `ps` of
      their positions, every cell moving with its row, and keeps the column names. */
  lemma SortedRows(w: Frame, r: Frame, sort: bool, ascending: bool)
    requires Wf(w) && r == (if sort then SortIndex(w, ascending) else w).(attrs := r.attrs)
    ensures var ps := if sort then SortOrder(w.index, ascending) else Iota(|w.index|);
      && |r.index| == |w.index| && |r.columns| == |w.columns|
      && multiset(ps) == multiset(Iota(|w.index|))
      && (forall k | 0 <= k < |ps| :: r.index[k] == w.index[ps[k]])
      && (forall c | 0 <= c < |w.columns| :: r.columns[c].name == w.columns[c].name)
      && (forall c, k | 0 <= c < |w.columns| && 0 <= k < |ps| :: r.columns[c].values[k] == w.columns[c].values[ps[k]])
  {
    if sort {
      SortIndexSpec(w, ascending);
      forall c | 0 <= c < |w.columns| ensures r.columns[c].name == w.columns[c].name {
        assert Names(r.columns)[c] == Names(w.columns)[c];
      }
    }
  }

  // ---------------------------------------------------------------------------------
  // Datasets writer (write_datasets_csv)

  /** The keyword arguments of `write_datasets_csv` that shape the file. */
  datatype WriteSettings = WriteSettings(noData: real, ascending: bool, sort: bool, withIndex: bool,
                                         indexLabel: string)

  /** The defaults: -9999 for missing values, newest first, the index written as `time`. */
  const DefaultWrite := WriteSettings(-9999.0, false, true, true, "time")

  function FillCell(x: Field, noData: real): Field {
    if x.Null? then Num(noData) else x
  }

  /** `fillna(noData)`: a missing cell becomes the no-data number, any other stays. */
  function FillMissing(f: Frame, noData: real): (r: Frame)
    requires Wf(f)
    ensures Wf(r) && r.index == f.index && r.attrs == f.attrs && Names(r.columns) == Names(f.columns)
    ensures forall c, i | 0 <= c < |f.columns| && 0 <= i < |f.index| ::
      !r.columns[c].values[i].Null?
      && (f.columns[c].values[i].Null? ==> r.columns[c].values[i] == Num(noData))
      && (!f.columns[c].values[i].Null? ==> r.columns[c].values[i] == f.columns[c].values[i])
  {
    f.(columns := seq(|f.columns|, c requires 0 <= c < |f.columns| =>
      Column(f.columns[c].name, seq(|f.index|, i requires 0 <= i < |f.index| => FillCell(f.columns[c].values[i], noData)))))
  }

  /** No cell of the frame is missing. */
  predicate Complete(f: Frame) {
    forall c, i | 0 <= c < |f.columns| && 0 <= i < |f.columns[c].values| :: !f.columns[c].values[i].Null?
  }

  /** The rows to write, before the time column goes: renamed by `fields`, missing values
      filled, and sorted by time. */
  function Prepared(f: Frame, fields: Option<map<string, string>>, w: WriteSettings): (r: Frame)
    requires Wf(f)
    ensures Wf(r) && |r.index| == |f.index| && Complete(r)
    ensures w.sort ==> Ordered(r.index, w.ascending)
  {
    var renamed := if fields.Some? then Rename(f, fields.value) else f;
    var filled := FillMissing(renamed, w.noData);
    SortIndexSpec(filled, w.ascending);
    if w.sort then
      var sorted := SortIndex(filled, w.ascending);
      var ps := SortOrder(filled.index, w.ascending);
      assert Complete(sorted) by {
        forall c, i | 0 <= c < |sorted.columns| && 0 <= i < |sorted.columns[c].values|
          ensures !sorted.columns[c].values[i].Null?
        {
          assert sorted.columns[c].values[i] == filled.columns[c].values[ps[i]];
        }
      }
      sorted
    else filled
  }

  /** The order in which the rows of `f` are written. */
  function WriteOrder(f: Frame, w: WriteSettings): (ps: seq<nat>)
    ensures |ps| == |f.index| && Within(ps, |f.index|)
  {
    if w.sort then SortOrder(f.index, w.ascending) else Iota(|f.index|)
  }

  /** Column `c` of the prepared frame is column `c` of `f` under its new name, its cells
      taken in the write order with missing ones written as the no-data number; with the
      sort, every row of `f` is written exactly once. */
  lemma PreparedValues(f: Frame, fields: Option<map<string, string>>, w: WriteSettings)
    requires Wf(f)
    ensures var p := Prepared(f, fields, w);
      var ps := WriteOrder(f, w);
      && |p.columns| == |f.columns|
      && multiset(ps) == multiset(Iota(|f.index|))
      && (forall k | 0 <= k < |ps| :: p.index[k] == f.index[ps[k]])
      && (forall c | 0 <= c < |f.columns| :: p.columns[c].name == RenameName(f.columns[c].name, if fields.Some? then fields.value else map[]))
      && (forall c, k | 0 <= c < |f.columns| && 0 <= k < |ps| ::
            p.columns[c].values[k] == FillCell(f.columns[c].values[ps[k]], w.noData))
  {
    var renamed := if fields.Some? then Rename(f, fields.value) else f;
    var filled := FillMissing(renamed, w.noData);
    SortIndexSpec(filled, w.ascending);
  }

  /** The frame handed to `to_csv`: the prepared rows without a column named like the index
      label when the index is written. */
  function Written(f: Frame, fields: Option<map<string, string>>, w: WriteSettings): (r: Frame)
    requires Wf(f)
    ensures Wf(r) && |r.index| == |f.index| && Complete(r)
    ensures w.withIndex ==> w.indexLabel !in Names(r.columns)
    ensures w.sort ==> Ordered(r.index, w.ascending)
  {
    var p := Prepared(f, fields, w);
    if w.withIndex && Has(p, w.indexLabel) then
      var r := DropColumn(p, w.indexLabel);
      assert Complete(r) by {
        forall c, i | 0 <= c < |r.columns| && 0 <= i < |r.columns[c].values| ensures !r.columns[c].values[i].Null? {
          assert r.columns[c] in p.columns;
        }
      }
      r
    else p
  }

  /** The cells of row `i` of a frame, left to right. */
  function RowCells(f: Frame, i: nat): (r: seq<Field>)
    requires Wf(f) && i < |f.index|
    ensures |r| == |f.columns| && forall c | 0 <= c < |f.columns| :: r[c] == f.columns[c].values[i]
  {
    seq(|f.columns|, c requires 0 <= c < |f.columns| => f.columns[c].values[i])
  }

  /** The written file as the table a CSV parse gives back: the index, when written, is a
      first column of stamped times under `indexLabel`; rows are labelled 0..n-1. */
  function Sheet(f: Frame, stamp: Time -> string, w: WriteSettings): (r: Table)
    requires Wf(f)
    ensures WfTable(r) && |r.rows| == |f.index|
    ensures r.columns == (if w.withIndex then [w.indexLabel] else []) + Names(f.columns)
  {
    FromRows((if w.withIndex then [w.indexLabel] else []) + Names(f.columns),
      seq(|f.index|, i requires 0 <= i < |f.index| => SheetRow(f, i, stamp, w)))
  }

  function SheetRow(f: Frame, i: nat, stamp: Time -> string, w: WriteSettings): (r: seq<Field>)
    requires Wf(f) && i < |f.index|
    ensures |r| == (if w.withIndex then 1 else 0) + |f.columns|
  {
    (if w.withIndex then [Text(stamp(f.index[i]))] else []) + RowCells(f, i)
  }

  /** `write_datasets_csv`: no cell of the file is missing, and with the index written the
      time label heads the columns and appears nowhere else. */
  function WriteDatasets(f: Frame, fields: Option<map<string, string>>, stamp: Time -> string,
                         w: WriteSettings): (r: Table)
    requires Wf(f)
    ensures WfTable(r) && |r.rows| == |f.index|
    ensures forall i, c | 0 <= i < |r.rows| && 0 <= c < |r.columns| :: !r.rows[i][c].Null?
    ensures w.withIndex ==> |r.columns| > 0 && r.columns[0] == w.indexLabel && w.indexLabel !in r.columns[1..]
  {
    var out := Written(f, fields, w);
    var r := Sheet(out, stamp, w);
    assert forall i, c | 0 <= i < |r.rows| && 0 <= c < |r.columns| :: !r.rows[i][c].Null? by {
      forall i, c | 0 <= i < |r.rows| && 0 <= c < |r.columns| ensures !r.rows[i][c].Null? {
        if w.withIndex && c > 0 {
          assert r.rows[i][c] == RowCells(out, i)[c - 1];
        } else if !w.withIndex {
          assert r.rows[i][c] == RowCells(out, i)[c];
        }
      }
    }
    assert w.withIndex ==> r.columns[1..] == Names(out.columns);
    r
  }

  /** The stamped times of an index, as the written `time` column holds them. */
  function Stamps(index: seq<Time>, stamp: Time -> string): (r: seq<Field>)
    ensures |r| == |index| && forall i | 0 <= i < |index| :: r[i] == Text(stamp(index[i]))
  {
    seq(|index|, i requires 0 <= i < |index| => Text(stamp(index[i])))
  }

  /** Read back column by column, the written table is the stamped index followed by the
      written columns. */
  lemma SheetColumns(out: Frame, stamp: Time -> string)
    requires Wf(out)
    ensures TableColumns(Sheet(out, stamp, DefaultWrite), map[])
      == [Column("time", Stamps(out.index, stamp))] + out.columns
  {
    var raw := Sheet(out, stamp, DefaultWrite);
    var cols := TableColumns(raw, map[]);
    var expected := [Column("time", Stamps(out.index, stamp))] + out.columns;
    assert cols[0] == expected[0] by {
      forall i | 0 <= i < |out.index| ensures cols[0].values[i] == Text(stamp(out.index[i])) {
        assert cols[0].values[i] == raw.rows[i][0];
        assert raw.rows[i] == SheetRow(out, i, stamp, DefaultWrite);
      }
    }
    forall c | 1 <= c < |cols| ensures cols[c] == expected[c] {
      assert raw.columns[c] == out.columns[c - 1].name;
      forall i | 0 <= i < |out.index| ensures cols[c].values[i] == out.columns[c - 1].values[i] {
        assert cols[c].values[i] == raw.rows[i][c];
        assert raw.rows[i] == SheetRow(out, i, stamp, DefaultWrite);
        assert raw.rows[i][c] == RowCells(out, i)[c - 1];
      }
    }
  }

  /** Writing with the defaults and reading back with the defaults gives the written frame,
      newest first, with its `time` column rebuilt from the index, provided the time stamp
      parses back to the time it prints. */
  lemma WriteReadRoundTrip(f: Frame, fields: Option<map<string, string>>, stamp: Time -> string,
                           parse: Field -> Option<Time>, registry: Option<map<string, Field>>, reference: Field)
    requires Wf(f)
    requires forall t :: parse(Text(stamp(t))) == Some(t)
    ensures var out := Written(f, fields, DefaultWrite);
      ReadDatasets(WriteDatasets(f, fields, stamp, DefaultWrite), map[], registry, reference, DefaultRead, parse)
      == Ok(Frame(out.index, [Column("time", Stamps(out.index, stamp))] + out.columns,
                  (if registry.Some? then registry.value else map[])["time_reference" := reference]))
  {
    var out := Written(f, fields, DefaultWrite);
    var raw := WriteDatasets(f, fields, stamp, DefaultWrite);
    assert raw == Sheet(out, stamp, DefaultWrite);
    var cols := TableColumns(raw, map[]);
    SheetColumns(out, stamp);
    assert Names(cols)[0] == "time";
    assert ColumnIndex(cols, "time") == 0;
    var stamps := Stamps(out.index, stamp);
    assert cols[0].values == stamps;
    var times := ParseAll(stamps, parse);
    assert times.Some? && times.value == out.index by {
      forall i | 0 <= i < |out.index| ensures parse(stamps[i]) == Some(out.index[i]) {
        assert stamps[i] == Text(stamp(out.index[i]));
      }
    }
    var g := Frame(out.index, cols, map[]);
    assert Windowed(g, DefaultRead) == Ok(g);
    SortIndexInOrder(g, false);
  }
}
