/** Python-level values that flow through the simulator: the scalars a
    strategy dictionary or a trial callback can hold, `str()` of them, and the
    Option/Result wrappers used for missing keys and raised exceptions. */
module Values {

  datatype Option<+T> = None | Some(value: T)

  /** `Err` stands for an exception the Python code raises at that point. */
  datatype Result<+T, +E> = Ok(value: T) | Err(error: E)

  /** A scalar Python value: an `int`, a `str`, or `None` (also what
      `dict.get` returns for a missing key). */
  datatype Value = Num(n: int) | Text(s: string) | Null

  /** Decimal digits of a natural number, most significant first. */
  function NatToString(n: nat): (s: string)
    decreases n
  {
    var digit := ['0', '1', '2', '3', '4', '5', '6', '7', '8', '9'][n % 10];
    if n < 10 then [digit] else NatToString(n / 10) + [digit]
  }

  /** Python's `str(v)`. */
  function Str(v: Value): string
  {
    match v
    case Num(n) => if n < 0 then "-" + NatToString(-n) else NatToString(n)
    case Text(s) => s
    case Null => "None"
  }
}
