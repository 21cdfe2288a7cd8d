/**
 * The few .NET framework operations the request helper relies on: nullable
 * strings, the exceptions it can raise, LINQ's FirstOrDefault over a
 * StringValues list, string.IsNullOrEmpty, string.EndsWith and
 * string.Substring.
 */
module DotNet {
  import opened Wrappers

  /** A C# `string` reference, which may be null. */
  type NullableString = Option<string>

  /** The exceptions the modelled code can raise. */
  datatype Exception =
    | ArgumentNullException(paramName: string)
    | NullReferenceException
    | ArgumentOutOfRangeException

  /** LINQ `FirstOrDefault` on a list of strings: the first element, or null when the list is empty. */
  function FirstOrDefault(values: seq<NullableString>): (r: NullableString)
    ensures r == None <==> values == [] || values[0] == None
    ensures r.Some? ==> r == values[0]
  {
    if values == [] then None else values[0]
  }

  /** `string.IsNullOrEmpty`. */
  function IsNullOrEmpty(s: NullableString): (b: bool)
    ensures b <==> s.None? || |s.value| == 0
  {
    s == None || s == Some("")
  }

  /**
   * Ordinal `string.EndsWith`: compares the two strings character by
   * character from their last characters backwards.
   */
  function EndsWith(s: string, suffix: string): (b: bool)
    ensures b <==> |suffix| <= |s| && s[|s| - |suffix|..] == suffix
    decreases |suffix|
  {
    if |suffix| == 0 then true
    else if |s| == 0 then false
    else
      var s', suffix' := s[..|s| - 1], suffix[..|suffix| - 1];
      assert s == s' + [s[|s| - 1]] && suffix == suffix' + [suffix[|suffix| - 1]];
      s[|s| - 1] == suffix[|suffix| - 1] && EndsWith(s', suffix')
  }

  /**
   * `string.Substring(startIndex, length)`: the `length` characters from
   * `startIndex` on, or an ArgumentOutOfRangeException when that range is
   * not inside the string.
   */
  function Substring(s: string, startIndex: int, length: int): (r: Result<string, Exception>)
    ensures r.Ok? <==> 0 <= startIndex && 0 <= length && startIndex + length <= |s|
    ensures r.Ok? ==> |r.value| == length && forall i :: 0 <= i < length ==> r.value[i] == s[startIndex + i]
    ensures r.Err? ==> r.error == ArgumentOutOfRangeException
  {
    if startIndex < 0 || startIndex > |s| || length < 0 || startIndex > |s| - length then
      Err(ArgumentOutOfRangeException)
    else
      Ok(s[startIndex..startIndex + length])
  }
}
