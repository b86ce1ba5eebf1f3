/** Cell values of the data frames, and the no-data sentinel. */
module Values {
  import opened Wrappers
  import StringUtils

  /** A timestamp, in minutes since the epoch. */
  type Time = int

  /** Minutes in one hour: the step of the hourly grids. */
  const Hour: int := 60

  /** The no-data sentinel used by every stage. */
  const NoData: real := -9999.0

  /** One cell of a data frame. `Null` is pandas' NaN/None. */
  datatype Field = Null | Num(r: real) | Int(i: int) | Text(s: string) | Stamp(t: Time)

  /** The numeric reading of a cell; NaN and non-numeric cells have none. */
  function AsReal(f: Field): Option<real> {
    match f
    case Num(r) => Some(r)
    case Int(i) => Some(i as real)
    case _ => None
  }

  /** `value == nodata` on a cell: NaN and non-numeric cells never compare equal. */
  predicate IsNoData(f: Field, noData: real) {
    AsReal(f) == Some(noData)
  }

  /** `column[column == nodata] = NaN` on one cell. */
  function Unmark(f: Field, noData: real): (r: Field)
    ensures IsNoData(f, noData) ==> r == Null
    ensures !IsNoData(f, noData) ==> r == f
  {
    if IsNoData(f, noData) then Null else f
  }

  /** `value == 1` on a cell, as pandas compares a numeric column with the integer 1. */
  predicate IsOne(f: Field) {
    AsReal(f) == Some(1.0)
  }

  /** `str(value)`. Strings are themselves and integers print in decimal; the source relies
      on Python's printing of floats, timestamps and NaN, which `repr` stands for. */
  function PyStr(f: Field, repr: Field -> string): string {
    match f
    case Text(s) => s
    case Int(i) => StringUtils.IntToString(i)
    case _ => repr(f)
  }
}
