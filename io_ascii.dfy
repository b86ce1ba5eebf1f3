/** The one-number-per-line parameter file reader (sm_model/lib_data_io_ascii.py). Opening
    the file is left out: the reader starts from its lines. The number parse of a line
    (Python's `float`) is passed in as a function that answers None when it would raise. */
module IoAscii {
  import opened Wrappers
  import opened StringUtils
  import Dicts

  /** A `str.format` template with one `{:}` slot: the text before and after the slot. */
  datatype Template = Template(before: string, after: string)

  /** `'param_{:}'`. */
  const DefaultTemplate := Template("param_", "")

  /** `template.format(n)`. */
  function Key(t: Template, n: nat): string {
    t.before + NatToString(n) + t.after
  }

  lemma KeyInjective(t: Template, a: nat, b: nat)
    requires Key(t, a) == Key(t, b)
    ensures a == b
  {
    var sa, sb := NatToString(a), NatToString(b);
    assert |sa| == |sb|;
    assert sa == Key(t, a)[|t.before|..|t.before| + |sa|];
    assert sb == Key(t, b)[|t.before|..|t.before| + |sb|];
    NatToStringInjective(a, b);
  }

  /** The positions, among the first `n` lines, of the lines that are not blank once
      stripped, in file order. */
  function KeptLines(lines: seq<string>, n: nat): (ps: seq<nat>)
    requires n <= |lines|
    ensures forall k | 0 <= k < |ps| :: ps[k] < n && Strip(lines[ps[k]]) != ""
    ensures forall i, j | 0 <= i < j < |ps| :: ps[i] < ps[j]
    ensures forall p | 0 <= p < n && Strip(lines[p]) != "" :: p in ps
  {
    if n == 0 then []
    else KeptLines(lines, n - 1) + (if Strip(lines[n - 1]) != "" then [n - 1] else [])
  }

  /** `[x.strip() for x in lines]`, then the non-empty ones. */
  function Entries(lines: seq<string>): (r: seq<string>)
    ensures var ps := KeptLines(lines, |lines|);
      |r| == |ps| && forall k | 0 <= k < |ps| :: r[k] == Strip(lines[ps[k]])
  {
    var ps := KeptLines(lines, |lines|);
    seq(|ps|, k requires 0 <= k < |ps| => Strip(lines[ps[k]]))
  }

  /** The dictionary the reader builds: the k-th value under the key numbered k + 1. */
  function Numbered(values: seq<real>, t: Template): (d: Dicts.Dict<real>)
    ensures |d| == |values| && forall k | 0 <= k < |values| :: d[k] == (Key(t, k + 1), values[k])
  {
    seq(|values|, k requires 0 <= k < |values| => (Key(t, k + 1), values[k]))
  }

  /** `read_parameters_ascii`: the non-blank stripped lines parsed as numbers, then stored
      in file order under `template.format(i + 1)`; a line that is not a number is a
      ValueError. */
  method ReadParametersAscii(lines: seq<string>, parse: string -> Option<real>, t: Template)
    returns (r: Result<Dicts.Dict<real>>)
    ensures var values := ParseAll(Entries(lines), parse);
      && (values.None? <==> r.Err?)
      && (r.Err? ==> r.error.ValueError?)
      && (r.Ok? ==> r.value == Numbered(values.value, t))
  {
    var content := ParseAll(Entries(lines), parse);
    if content.None? {
      return Err(ValueError("could not convert string to float"));
    }
    var values := content.value;
    var obj: Dicts.Dict<real> := [];
    var i := 0;
    while i < |values|
      invariant 0 <= i <= |values|
      invariant obj == Numbered(values[..i], t)
    {
      NumberedStep(values, i, t);
      obj := Dicts.Put(obj, Key(t, i + 1), values[i]);
      i := i + 1;
    }
    assert values[..i] == values;
    return Ok(obj);
  }

  /** One iteration of the reader's loop: the next key is fresh, so storing under it
      extends the dictionary by one pair. */
  lemma NumberedStep(values: seq<real>, i: nat, t: Template)
    requires i < |values|
    ensures Dicts.Put(Numbered(values[..i], t), Key(t, i + 1), values[i]) == Numbered(values[..i + 1], t)
  {
    var obj := Numbered(values[..i], t);
    assert Key(t, i + 1) !in Dicts.Keys(obj) by {
      if Key(t, i + 1) in Dicts.Keys(obj) {
        var k :| 0 <= k < |obj| && obj[k].0 == Key(t, i + 1);
        KeyInjective(t, k + 1, i + 1);
      }
    }
    Dicts.PutFresh(obj, Key(t, i + 1), values[i]);
  }

  /** The reader's dictionary has one entry per non-blank line, no key twice, and the
      number of the k-th non-blank line (1-based) under the k-th key. */
  lemma NumberedSpec(lines: seq<string>, values: seq<real>, t: Template)
    requires |values| == |Entries(lines)|
    ensures |Numbered(values, t)| == |KeptLines(lines, |lines|)|
    ensures Dicts.Distinct(Numbered(values, t))
    ensures forall n | 1 <= n <= |values| ::
      Key(t, n) in Dicts.Keys(Numbered(values, t)) && Dicts.Get(Numbered(values, t), Key(t, n)) == values[n - 1]
  {
    var d := Numbered(values, t);
    forall i, j | 0 <= i < j < |d| ensures d[i].0 != d[j].0 {
      if d[i].0 == d[j].0 {
        KeyInjective(t, i + 1, j + 1);
      }
    }
    forall n | 1 <= n <= |values| ensures Key(t, n) in Dicts.Keys(d) && Dicts.Get(d, Key(t, n)) == values[n - 1] {
      assert d[n - 1] == (Key(t, n), values[n - 1]);
      DistinctGet(d, n - 1);
    }
  }

  lemma {:induction false} DistinctGet(d: Dicts.Dict<real>, k: nat)
    requires Dicts.Distinct(d) && k < |d|
    ensures d[k].0 in Dicts.Keys(d) && Dicts.Get(d, d[k].0) == d[k].1
  {
    if k > 0 {
      DistinctGet(d[1..], k - 1);
      assert d[1..][k - 1] == d[k];
    }
  }

  /** A blank or whitespace-only line changes nothing. */
  lemma BlankLineIgnored(lines: seq<string>, blank: string)
    requires Strip(blank) == ""
    ensures Entries(lines + [blank]) == Entries(lines)
  {
    var more := lines + [blank];
    assert KeptLines(more, |lines|) == KeptLines(lines, |lines|) by {
      KeptLinesPrefix(lines, more, |lines|);
    }
  }

  /** A line that is not blank adds its stripped text last. */
  lemma LineAppended(lines: seq<string>, line: string)
    requires Strip(line) != ""
    ensures Entries(lines + [line]) == Entries(lines) + [Strip(line)]
  {
    var more := lines + [line];
    KeptLinesPrefix(lines, more, |lines|);
  }

  lemma {:induction false} KeptLinesPrefix(a: seq<string>, b: seq<string>, n: nat)
    requires n <= |a| <= |b| && a == b[..|a|]
    ensures KeptLines(a, n) == KeptLines(b, n)
  {
    if n > 0 {
      KeptLinesPrefix(a, b, n - 1);
      assert a[n - 1] == b[n - 1];
    }
  }
}
