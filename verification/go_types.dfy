/**
 * Value types shared by the rest of the model: Go's fixed-width integers,
 * the error-or-value shapes Go code returns, and the nullable column types
 * of pgx's `pgtype` package that the generated queries use.
 */
module GoTypes {

  const MinInt32: int := -0x8000_0000
  const MaxInt32: int := 0x7fff_ffff
  const MinInt64: int := -0x8000_0000_0000_0000
  const MaxInt64: int := 0x7fff_ffff_ffff_ffff

  /** Go's `int32`. */
  newtype Int32 = x: int | MinInt32 <= x <= MaxInt32

  /** Go's `int64`, also the representation of `time.Duration` (nanoseconds). */
  newtype Int64 = x: int | MinInt64 <= x <= MaxInt64

  type Duration = Int64

  /** A `time.Time`, as nanoseconds since the Unix epoch (no monotonic reading, no zone). */
  type Time = int

  datatype Option<+T> = None | Some(value: T)

  datatype Result<+T, +E> = Ok(value: T) | Err(error: E)

  /** pgtype.Int4: a nullable 32-bit integer column. */
  datatype Int4 = Int4(int32: Int32, valid: bool)

  /** pgtype.Text: a nullable text column. */
  datatype Text = Text(str: string, valid: bool)

  /** pgtype.Timestamp: a nullable timestamp column. */
  datatype Timestamp = Timestamp(time: Time, valid: bool)

  /** The zero value of pgtype.Int4, which is SQL NULL. */
  const NullInt4 := Int4(0, false)

  /** Two's-complement wrap-around of a mathematical integer into int64, as Go's multiplication does. */
  function Wrap64(x: int): (r: Int64)
    ensures (r as int - x) % 0x1_0000_0000_0000_0000 == 0
    ensures MinInt64 <= x <= MaxInt64 ==> r as int == x
  {
    var m := (x - MinInt64) % 0x1_0000_0000_0000_0000;
    (m + MinInt64) as Int64
  }

  /** Clamping of a mathematical integer into int64, as Go's `time.Time.Sub` does. */
  function Saturate64(x: int): (r: Int64)
    ensures MinInt64 <= x <= MaxInt64 ==> r as int == x
    ensures x > MaxInt64 ==> r as int == MaxInt64
    ensures x < MinInt64 ==> r as int == MinInt64
  {
    if x > MaxInt64 then MaxInt64 as Int64
    else if x < MinInt64 then MinInt64 as Int64
    else x as Int64
  }
}
