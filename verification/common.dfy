/** Values shared by every part of the module: byte strings as the C and C++
    code sees them (`std::string` contents, `const char *` texts without their
    terminator) and an optional value for "nothing was produced". */
module Common {

  newtype uint8 = x: int | 0 <= x < 0x100

  newtype uint32 = x: int | 0 <= x < 0x1_0000_0000

  type Bytes = seq<uint8>

  datatype Option<+T> = None | Some(value: T)

  /** The bytes of a string literal of the module's C++ code; every such literal is ASCII. */
  function FromAscii(s: string): (r: Bytes)
    ensures |r| == |s|
  {
    seq(|s|, i requires 0 <= i < |s| => (s[i] as int % 0x100) as uint8)
  }

  /** `std::string::starts_with`: `prefix` is an initial segment of `s`. */
  predicate StartsWith(s: Bytes, prefix: Bytes)
  {
    |prefix| <= |s| && s[..|prefix|] == prefix
  }

  /** A string starts with every one of its initial segments, and with nothing else
      of that length. */
  lemma StartsWithAppend(prefix: Bytes, rest: Bytes, other: Bytes)
    requires |other| == |prefix|
    ensures StartsWith(prefix + rest, prefix)
    ensures StartsWith(prefix + rest, other) <==> other == prefix
  {
    assert (prefix + rest)[..|prefix|] == prefix;
  }
}
