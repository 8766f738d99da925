/** The status dictionary the host engine passes to and from the backend,
    reduced to the two kinds of value this backend reads and writes. */
module Dictionary {
  import opened Exceptions

  /** A signed 64-bit integer, the width of an integer dictionary entry. */
  newtype Long = x: int | -0x8000_0000_0000_0000 <= x < 0x8000_0000_0000_0000

  /** A dictionary entry: a string or an integer. */
  datatype Value = StringValue(s: string) | IntValue(i: Long)

  type Dict = map<string, Value>

  /** `updateValue<std::string>(d, key, current)`: keep `current` when the key is
      absent, take the entry's string when it holds one, raise otherwise. */
  function UpdateString(d: Dict, key: string, current: string): (r: Result<string>)
    ensures r.Success? <==> key !in d || d[key].StringValue?
    ensures key !in d ==> r == Success(current)
    ensures key in d && d[key].StringValue? ==> r == Success(d[key].s)
    ensures r.Failure? ==> r.error == TypeMismatch(key)
  {
    if key !in d then Success(current)
    else match d[key]
      case StringValue(s) => Success(s)
      case IntValue(_) => Failure(TypeMismatch(key))
  }

  /** `updateValue<long>(d, key, current)`: keep `current` when the key is absent,
      take the entry's integer when it holds one, raise otherwise. */
  function UpdateLong(d: Dict, key: string, current: Long): (r: Result<Long>)
    ensures r.Success? <==> key !in d || d[key].IntValue?
    ensures key !in d ==> r == Success(current)
    ensures key in d && d[key].IntValue? ==> r == Success(d[key].i)
    ensures r.Failure? ==> r.error == TypeMismatch(key)
  {
    if key !in d then Success(current)
    else match d[key]
      case IntValue(i) => Success(i)
      case StringValue(_) => Failure(TypeMismatch(key))
  }
}
