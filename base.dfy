/// Values shared by every part of the pipeline: optional values, results,
/// the framework's scalar types and boxed `object` values.
module Base {

  /** A value that may be absent: a nullable reference or an empty lookup. */
  datatype Option<+T> = None | Some(value: T) {
    function GetOr(default: T): T {
      match this
      case Some(v) => v
      case None => default
    }
  }

  /** Either a value or the error that replaced it (a thrown exception). */
  datatype Result<+T, +E> = Ok(value: T) | Err(error: E)

  /** A 128-bit unique identifier, `Guid.Empty` being zero. */
  newtype Guid = x: int | 0 <= x < 0x1_0000_0000_0000_0000_0000_0000_0000_0000

  const EmptyGuid: Guid := 0

  /** C# `int` and `long`. */
  newtype int32 = x: int | -0x8000_0000 <= x < 0x8000_0000
  newtype int64 = x: int | -0x8000_0000_0000_0000 <= x < 0x8000_0000_0000_0000

  /** A calendar date, as its day number. */
  type DateOnly = int

  /**
   * A boxed value of static type `object`, as far as the pipeline inspects it:
   * a boxed `int`, a boxed `long`, a boxed `Guid`, a wrapped record id that
   * exposes its underlying key object, or any other object, known only by the
   * text its `ToString()` produces.
   */
  datatype Obj =
    | IntValue(i: int32)
    | LongValue(l: int64)
    | GuidValue(g: Guid)
    | RecordIdValue(keyObject: Obj)
    | OtherValue(text: string)
}
