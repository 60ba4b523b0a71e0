/**
 * Go strings and byte slices. A Go `string` is an immutable sequence of
 * bytes; here it is a Dafny `string` holding one char per byte, and a
 * `[]byte` read from a file is a sequence of `byte`.
 */
module Text {

  newtype byte = b: int | 0 <= b < 256

  type Bytes = seq<byte>

  /** The strings that can stand for Go strings: every char is one byte. */
  predicate IsByteString(s: string)
  {
    forall i :: 0 <= i < |s| ==> s[i] as int < 256
  }

  /** Go's conversion `string(data)`: the same bytes, in the same order, nothing trimmed. */
  function BytesToString(data: Bytes): (s: string)
    ensures |s| == |data| && IsByteString(s)
    ensures forall i :: 0 <= i < |data| ==> s[i] as int == data[i] as int
  {
    seq(|data|, i requires 0 <= i < |data| => data[i] as int as char)
  }

  /**
   * Go's conversion `[]byte(s)`, the inverse of BytesToString: the bytes it
   * gives convert back to the same string.
   */
  function StringToBytes(s: string): (data: Bytes)
    requires IsByteString(s)
    ensures |data| == |s|
    ensures forall i :: 0 <= i < |s| ==> data[i] as int == s[i] as int
    ensures BytesToString(data) == s
  {
    seq(|s|, i requires 0 <= i < |s| => s[i] as int as byte)
  }

  /** Converting file bytes to a string loses nothing: the bytes come back unchanged. */
  lemma BytesRoundTrip(data: Bytes)
    ensures StringToBytes(BytesToString(data)) == data
  {
  }

  /** `s` starts with `prefix`. */
  predicate HasPrefix(s: string, prefix: string)
  {
    |prefix| <= |s| && s[..|prefix|] == prefix
  }

}
