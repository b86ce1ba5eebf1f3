/** The time helpers of the pipeline (sm_model/lib_utils_time.py): frequency strings,
    hour replacement, selection and flooring of the run time, the analysis range and the
    frequency of an index. Timestamps are whole minutes since the epoch; a pandas
    frequency or rounding unit of fixed length is its length in minutes. */
module TimeUtils {
  import opened Wrappers
  import opened Values
  import opened StringUtils

  const Day: int := 1440

  // ---------------------------------------------------------------------------------
  // split_time_part

  /** `split_time_part`: a frequency string starting with a letter has period 1 and the
      whole string (lower-cased) as unit; otherwise the first character is the period.
      Indexing an empty string raises IndexError. */
  function SplitTimePart(s: string): (r: Result<(Field, string)>)
    ensures r.Err? <==> s == []
    ensures r.Ok? && IsLetter(s[0]) ==> r.value.0 == Int(1) && |r.value.1| == |s|
    ensures r.Ok? && !IsLetter(s[0]) ==> r.value.0 == Text([s[0]]) && |r.value.1| == |s| - 1
  {
    if s == [] then Err(IndexError("string index out of range"))
    else if IsLetter(s[0]) then Ok((Int(1), Lower(s)))
    else Ok((Text([s[0]]), Lower(s[1..])))
  }

  /** Putting the parts back together gives the lower-cased frequency string: nothing is
      lost or reordered by the split. */
  lemma SplitTimePartJoins(s: string)
    requires s != []
    ensures var (period, unit) := SplitTimePart(s).value;
      (period.Int? ==> unit == Lower(s))
      && (period.Text? ==> period.s + unit == Lower(s))
  {
    var (period, unit) := SplitTimePart(s).value;
    if period.Text? {
      assert period.s + unit == Lower(s) by {
        assert LowerChar(s[0]) == s[0];
        forall i | 0 <= i < |s| ensures (period.s + unit)[i] == Lower(s)[i] {
          if i > 0 {
            assert unit[i - 1] == LowerChar(s[1..][i - 1]);
          }
        }
      }
    }
  }

  // ---------------------------------------------------------------------------------
  // Hours within a day

  function DayOf(t: Time): int { t / Day }
  function HourOf(t: Time): int { (t % Day) / Hour }
  function MinuteOf(t: Time): int { t % Hour }

  /** `timestamp.replace(hour=h)`. */
  function SetHour(t: Time, h: int): (r: Time)
    requires 0 <= h < 24
    ensures DayOf(r) == DayOf(t) && HourOf(r) == h && MinuteOf(r) == MinuteOf(t)
  {
    var m := t % Hour;
    var r := DayOf(t) * Day + h * Hour + m;
    assert 0 <= h * Hour + m < Day;
    assert r % Day == h * Hour + m && r / Day == DayOf(t) by {
      LemmaDivModUnique(r, Day, DayOf(t), h * Hour + m);
    }
    assert (h * Hour + m) / Hour == h by {
      LemmaDivModUnique(h * Hour + m, Hour, h, m);
    }
    assert t == DayOf(t) * Day + (t % Day);
    assert (t % Day) % Hour == m by {
      var q := t % Day;
      LemmaDivModUnique(t, Hour, DayOf(t) * 24 + q / Hour, q % Hour);
    }
    assert r % Hour == m by {
      LemmaDivModUnique(r, Hour, DayOf(t) * 24 + h, m);
    }
    r
  }

  /** `a * d` grows with `a`. */
  lemma {:induction false} LemmaMulMonotone(a: int, b: int, d: int)
    requires a <= b && d > 0
    ensures a * d <= b * d
    decreases b - a
  {
    if a < b {
      LemmaMulMonotone(a + 1, b, d);
      assert (a + 1) * d == a * d + d;
    }
  }

  /** Euclidean division is determined by any quotient and in-range remainder. */
  lemma LemmaDivModUnique(x: int, d: int, q: int, m: int)
    requires d > 0 && x == q * d + m && 0 <= m < d
    ensures x / d == q && x % d == m
  {
    var q0, m0 := x / d, x % d;
    if q0 > q {
      assert (q + 1) * d == q * d + d;
      LemmaMulMonotone(q + 1, q0, d);
      assert false;
    }
    if q0 < q {
      assert (q0 + 1) * d == q0 * d + d;
      LemmaMulMonotone(q0 + 1, q, d);
      assert false;
    }
  }

  /** Replacing the hour twice is replacing it once. */
  lemma SetHourIdempotent(t: Time, h: int)
    requires 0 <= h < 24
    ensures SetHour(SetHour(t, h), h) == SetHour(t, h)
  {
    var r := SetHour(t, h);
    assert r == DayOf(r) * Day + (r % Day);
    assert r % Day == h * Hour + MinuteOf(r) by {
      LemmaDivModUnique(r % Day, Hour, HourOf(r), (r % Day) % Hour);
      LemmaDivModUnique(r, Hour, DayOf(r) * 24 + HourOf(r), (r % Day) % Hour);
    }
  }

  /** `replace_time_part`: the hour of every timestamp set to `value`, in order. Each step
      raises NotImplementedError for a rounding other than 'H' and ValueError for an hour
      outside 0..23, so an empty input raises nothing. */
  method ReplaceTimePart(times: seq<Time>, rounding: string, value: int) returns (r: Result<seq<Time>>)
    ensures times == [] ==> r == Ok([])
    ensures times != [] && rounding != "H" ==> r.Err? && r.error.NotImplementedError?
    ensures times != [] && rounding == "H" && !(0 <= value < 24) ==> r.Err? && r.error.ValueError?
    ensures (times == [] || (rounding == "H" && 0 <= value < 24)) ==>
      r.Ok? && |r.value| == |times|
      && forall i | 0 <= i < |times| :: r.value[i] == SetHour(times[i], value)
  {
    var list: seq<Time> := [];
    for i := 0 to |times|
      invariant |list| == i
      invariant i > 0 ==> rounding == "H" && 0 <= value < 24
      invariant forall k | 0 <= k < i :: list[k] == SetHour(times[k], value)
    {
      if rounding != "H" {
        return Err(NotImplementedError("Case not implemented yet"));
      }
      if !(0 <= value < 24) {
        return Err(ValueError("hour must be in 0..23"));
      }
      list := list + [SetHour(times[i], value)];
    }
    return Ok(list);
  }

  // ---------------------------------------------------------------------------------
  // set_time_info

  /** Floor to a multiple of `unit`, as `Timestamp.floor` does for a fixed frequency. */
  function Floor(t: Time, unit: int): (r: Time)
    requires unit > 0
    ensures r <= t < r + unit && r % unit == 0
  {
    var r := t - t % unit;
    assert r == (t / unit) * unit;
    LemmaMultipleMod(t / unit, unit);
    r
  }

  lemma LemmaMultipleMod(q: int, d: int)
    requires d > 0
    ensures (q * d) % d == 0
  {
    LemmaDivModUnique(q * d, d, q, 0);
  }

  /** The floor is the latest multiple of the unit that is not after `t`. */
  lemma FloorIsGreatest(t: Time, unit: int, m: Time)
    requires unit > 0 && m % unit == 0 && m <= t
    ensures m <= Floor(t, unit)
  {
    var a, b := m / unit, t / unit;
    assert m == a * unit;
    assert t < (b + 1) * unit by {
      assert (b + 1) * unit == b * unit + unit;
    }
    if a > b {
      LemmaMulMonotone(b + 1, a, unit);
      assert false;
    }
    LemmaMulMonotone(a, b, unit);
  }

  /** The run time `set_time_info` reads: the argument, else the settings file, else
      today's date printed with the algorithm's format. */
  function ChooseRunTime(fromArgs: Option<string>, fromFile: Option<string>, today: string): (r: string)
    ensures fromArgs.Some? ==> r == fromArgs.value
    ensures fromArgs.None? && fromFile.Some? ==> r == fromFile.value
    ensures fromArgs.None? && fromFile.None? ==> r == today
  {
    match fromArgs
    case Some(a) => a
    case None => match fromFile { case Some(f) => f case None => today }
  }

  /** `set_time_info`: the chosen run time, parsed by pandas (`parse`; a string it rejects
      raises ValueError), and the reference time, the run time floored to the rounding
      unit. */
  function SetTimeInfo(fromArgs: Option<string>, fromFile: Option<string>, today: string,
                       parse: string -> Option<Time>, rounding: int): (r: Result<(Time, Time)>)
    requires rounding > 0
    ensures r.Err? <==> parse(ChooseRunTime(fromArgs, fromFile, today)).None?
    ensures r.Ok? ==>
      var (run, reference) := r.value;
      Some(run) == parse(ChooseRunTime(fromArgs, fromFile, today))
      && reference <= run < reference + rounding && reference % rounding == 0
  {
    var text := ChooseRunTime(fromArgs, fromFile, today);
    match parse(text)
    case None => Err(ValueError("could not convert string to Timestamp"))
    case Some(run) => Ok((run, Floor(run, rounding)))
  }

  // ---------------------------------------------------------------------------------
  // Ranges

  /** Round to the nearest multiple of `unit`, halves to the even multiple, as
      `Timestamp.round` does. */
  function Round(t: Time, unit: int): (r: Time)
    requires unit > 0
    ensures r % unit == 0 && 2 * (r - t) <= unit && 2 * (t - r) <= unit
    ensures 2 * (r - t) == unit || 2 * (t - r) == unit ==> (r / unit) % 2 == 0
  {
    var q, m := t / unit, t % unit;
    var k := if 2 * m < unit || (2 * m == unit && q % 2 == 0) then q else q + 1;
    RoundStep(t, unit, q, m, k);
    k * unit
  }

  lemma RoundStep(t: Time, unit: int, q: int, m: int, k: int)
    requires unit > 0 && t == q * unit + m && 0 <= m < unit
    requires k == (if 2 * m < unit || (2 * m == unit && q % 2 == 0) then q else q + 1)
    ensures (k * unit) % unit == 0 && (k * unit) / unit == k
    ensures 2 * (k * unit - t) <= unit && 2 * (t - k * unit) <= unit
    ensures 2 * (k * unit - t) == unit || 2 * (t - k * unit) == unit ==> k % 2 == 0
  {
    LemmaDivModUnique(k * unit, unit, k, 0);
    if k == q + 1 {
      assert k * unit == q * unit + unit;
    }
  }

  /** `pd.date_range(start, end, freq)`: every step from `start` up to `end` inclusive. */
  function DateRange(start: Time, end: Time, freq: int): (r: seq<Time>)
    requires freq > 0
    ensures start > end ==> r == []
    ensures start <= end ==> |r| == (end - start) / freq + 1
    ensures forall k | 0 <= k < |r| :: r[k] == start + k * freq
  {
    var n := if start > end then 0 else (end - start) / freq + 1;
    seq(n, k requires 0 <= k < n => start + k * freq)
  }

  /** The range holds exactly the times on the grid of `start` between the two ends. */
  lemma DateRangeMembers(start: Time, end: Time, freq: int, t: Time)
    requires freq > 0
    ensures t in DateRange(start, end, freq) <==> start <= t <= end && (t - start) % freq == 0
  {
    if t in DateRange(start, end, freq) {
      DateRangeMemberOnGrid(start, end, freq, t);
    } else if start <= t <= end && (t - start) % freq == 0 {
      DateRangeGridMember(start, end, freq, t);
    }
  }

  lemma DateRangeMemberOnGrid(start: Time, end: Time, freq: int, t: Time)
    requires freq > 0 && t in DateRange(start, end, freq)
    ensures start <= t <= end && (t - start) % freq == 0
  {
    var r := DateRange(start, end, freq);
    var k :| 0 <= k < |r| && r[k] == t;
    var n := (end - start) / freq;
    assert k <= n && t - start == k * freq;
    LemmaDivModUnique(t - start, freq, k, 0);
    LemmaMulMonotone(0, k, freq);
    LemmaMulMonotone(k, n, freq);
    LemmaDivBelow(end - start, freq);
  }

  lemma LemmaDivBelow(x: int, d: int)
    requires d > 0
    ensures (x / d) * d <= x
  {
  }

  lemma DateRangeGridMember(start: Time, end: Time, freq: int, t: Time)
    requires freq > 0 && start <= t <= end && (t - start) % freq == 0
    ensures t in DateRange(start, end, freq)
  {
    var r := DateRange(start, end, freq);
    var k := (t - start) / freq;
    var n := (end - start) / freq;
    assert t == start + k * freq;
    if k > n {
      assert (n + 1) * freq == n * freq + freq;
      LemmaMulMonotone(n + 1, k, freq);
      assert false;
    }
    if k < 0 {
      LemmaMulMonotone(k, -1, freq);
      assert false;
    }
    assert r[k] == t;
  }

  /** The range is strictly increasing. */
  lemma DateRangeIncreasing(start: Time, end: Time, freq: int)
    requires freq > 0
    ensures var r := DateRange(start, end, freq);
      forall i, j | 0 <= i < j < |r| :: r[i] < r[j]
  {
    var r := DateRange(start, end, freq);
    forall i, j | 0 <= i < j < |r| ensures r[i] < r[j] {
      LemmaMulMonotone(i + 1, j, freq);
      assert (i + 1) * freq == i * freq + freq;
    }
  }

  /** `pd.date_range(end=end, periods=n, freq)`: `n` steps ending at `end`. */
  function PeriodRange(end: Time, n: nat, freq: int): (r: seq<Time>)
    requires freq > 0
    ensures |r| == n && (n > 0 ==> r[n - 1] == end)
    ensures forall k | 0 <= k && k + 1 < n :: r[k + 1] - r[k] == freq
  {
    var r := seq(n, k requires 0 <= k < n => end - (n - 1 - k) * freq);
    assert forall k | 0 <= k && k + 1 < n :: r[k + 1] - r[k] == freq by {
      forall k | 0 <= k && k + 1 < n ensures r[k + 1] - r[k] == freq {
        assert (n - 1 - k) * freq - (n - 1 - (k + 1)) * freq == freq;
      }
    }
    r
  }

  /** The settings `define_time_range` reads; an absent or empty entry is `None`, and the
      time strings are already parsed. */
  datatype RangeSettings = RangeSettings(
    period: Option<int>, reference: Option<Time>, frequency: int, rounding: int,
    start: Option<Time>, end: Option<Time>)

  /** `define_time_range`: the analysis range with its first and last times. */
  function DefineTimeRange(d: RangeSettings, reverse: bool): (r: Result<(seq<Time>, Time, Time)>)
    requires d.frequency > 0 && d.rounding > 0
    ensures d.start.Some? && d.end.Some? ==>
      (r.Ok?
       && var (range, start, end) := r.value;
       start == Round(d.start.value, d.rounding) && end == Round(d.end.value, d.rounding)
       && range == (if reverse then Rev(DateRange(start, end, d.frequency)) else DateRange(start, end, d.frequency)))
    ensures !(d.start.Some? && d.end.Some?) && d.period.Some? && d.period.value > 0 && d.reference.Some? ==>
      (r.Ok?
       && var (range, start, end) := r.value;
       end == Round(d.reference.value, d.rounding) && |range| == d.period.value
       && var forward := PeriodRange(end, d.period.value, d.frequency);
       start == forward[0] && range == (if reverse then Rev(forward) else forward))
    ensures !(d.start.Some? && d.end.Some?) && d.period.Some? && d.period.value < 0 && d.reference.Some? ==>
      r.Err? && r.error.ValueError?
    ensures !(d.start.Some? && d.end.Some?) && !(d.period.Some? && d.period.value != 0 && d.reference.Some?) ==>
      r.Err? && r.error.RuntimeError?
  {
    if d.start.Some? && d.end.Some? then
      var start, end := Round(d.start.value, d.rounding), Round(d.end.value, d.rounding);
      var range := DateRange(start, end, d.frequency);
      Ok((if reverse then Rev(range) else range, start, end))
    else if d.period.Some? && d.period.value != 0 && d.reference.Some? then
      if d.period.value < 0 then Err(ValueError("Number of samples must be non-negative"))
      else
        var end := Round(d.reference.value, d.rounding);
        var range := PeriodRange(end, d.period.value, d.frequency);
        Ok((if reverse then Rev(range) else range, range[0], end))
    else Err(RuntimeError("Time information are not enough to define the time_range"))
  }

  /** The earliest and the latest time of a non-empty sequence (`min()`, `max()`, or the
      ends of `sorted(...)`). */
  function MinOf(s: seq<Time>): (m: Time)
    requires s != []
    ensures m in s && forall k | 0 <= k < |s| :: m <= s[k]
  {
    if |s| == 1 then s[0]
    else
      var m := MinOf(s[1..]);
      assert forall k | 1 <= k < |s| :: s[k] == s[1..][k - 1];
      if s[0] <= m then s[0] else m
  }

  function MaxOf(s: seq<Time>): (m: Time)
    requires s != []
    ensures m in s && forall k | 0 <= k < |s| :: m >= s[k]
  {
    if |s| == 1 then s[0]
    else
      var m := MaxOf(s[1..]);
      assert forall k | 1 <= k < |s| :: s[k] == s[1..][k - 1];
      if s[0] >= m then s[0] else m
  }

  /** `range[::-1]`. */
  function Rev<T>(s: seq<T>): (r: seq<T>)
    ensures |r| == |s| && forall k | 0 <= k < |s| :: r[k] == s[|s| - 1 - k]
  {
    seq(|s|, k requires 0 <= k < |s| => s[|s| - 1 - k])
  }

  lemma RevRev<T>(s: seq<T>)
    ensures Rev(Rev(s)) == s
  {
  }

  // ---------------------------------------------------------------------------------
  // define_time_frequency

  /** The position of the first letter of `s`, or `|s|`. */
  function FirstLetter(s: string): (i: nat)
    ensures i <= |s| && (i < |s| ==> IsLetter(s[i]))
    ensures forall k | 0 <= k < i :: !IsLetter(s[k])
  {
    if s == [] then 0
    else if IsLetter(s[0]) then 0
    else 1 + FirstLetter(s[1..])
  }

  /** The end of the run of letters starting at `i`. */
  function LetterRunEnd(s: string, i: nat): (j: nat)
    requires i <= |s|
    ensures i <= j <= |s| && (j < |s| ==> !IsLetter(s[j]))
    ensures forall k | i <= k < j :: IsLetter(s[k])
    decreases |s| - i
  {
    if i < |s| && IsLetter(s[i]) then LetterRunEnd(s, i + 1) else i
  }

  /** `re.findall("[a-zA-Z]+", s)[0]`: the first maximal run of letters. */
  function FirstWord(s: string): (r: Result<string>)
    ensures r.Err? <==> forall k | 0 <= k < |s| :: !IsLetter(s[k])
    ensures r.Err? ==> r.error.IndexError?
    ensures r.Ok? ==>
      exists i, j | 0 <= i < j <= |s| ::
        && r.value == s[i..j]
        && (forall k | 0 <= k < i :: !IsLetter(s[k]))
        && (forall k | i <= k < j :: IsLetter(s[k]))
        && (j < |s| ==> !IsLetter(s[j]))
  {
    var i := FirstLetter(s);
    if i == |s| then Err(IndexError("list index out of range"))
    else
      var j := LetterRunEnd(s, i);
      assert j > i;
      Ok(s[i..j])
  }

  /** The index `define_time_frequency` receives: a `DatetimeIndex` of times, or
      something else. */
  datatype TimeIndex = Datetimes(times: seq<Time>) | OtherIndex

  /** `define_time_frequency`. Three or more stamps use pandas' inferred frequency
      (`infer`), or when it finds none the resolution of the first step (`resolution`),
      and keep its first word; two stamps use the resolution of their step; one stamp or
      a non-datetime index gives the default; an empty index raises RuntimeError. */
  function DefineTimeFrequency(index: TimeIndex, default: string,
                               infer: seq<Time> -> Option<string>, resolution: int -> string): (r: Result<string>)
    ensures index.OtherIndex? ==> r == Ok(default)
    ensures index.Datetimes? && |index.times| == 0 ==> r.Err? && r.error.RuntimeError?
    ensures index.Datetimes? && |index.times| == 1 ==> r == Ok(default)
    ensures index.Datetimes? && |index.times| == 2 ==> r == Ok(resolution(index.times[1] - index.times[0]))
    ensures index.Datetimes? && |index.times| >= 3 ==>
      var raw := if infer(index.times).Some? then infer(index.times).value
                 else resolution(index.times[1] - index.times[0]);
      && r == FirstWord(raw)
      && (r.Ok? ==> |r.value| > 0 && forall k | 0 <= k < |r.value| :: IsLetter(r.value[k]))
      && (r.Err? <==> forall k | 0 <= k < |raw| :: !IsLetter(raw[k]))
      && (r.Err? ==> r.error.IndexError?)
  {
    match index
    case OtherIndex => Ok(default)
    case Datetimes(times) =>
      if |times| >= 3 then
        var raw := match infer(times) { case Some(f) => f case None => resolution(times[1] - times[0]) };
        FirstWord(raw)
      else if |times| == 2 then Ok(resolution(times[1] - times[0]))
      else if |times| == 1 then Ok(default)
      else Err(RuntimeError("Time index is not correctly defined"))
  }
}
