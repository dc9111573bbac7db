/**
 The JavaScript string representation: a string is a sequence of UTF-16 code
 units, and `length` counts code units, not characters. A Dafny `string` is a
 sequence of Unicode scalar values, so this module gives the encoding, its
 inverse, and the relation between the two lengths.
 */
module Utf16 {
  import opened Wrappers

  predicate IsHighSurrogate(u: int) { 0xD800 <= u < 0xDC00 }
  predicate IsLowSurrogate(u: int) { 0xDC00 <= u < 0xE000 }

  /** A character of the Basic Multilingual Plane takes one code unit. */
  predicate IsBmp(c: char) { c as int < 0x10000 }

  /** The code units JavaScript stores for one character. */
  function CharUnits(c: char): (us: seq<int>)
    ensures |us| == (if IsBmp(c) then 1 else 2)
    ensures IsBmp(c) ==> us[0] == c as int
    ensures !IsBmp(c) ==> IsHighSurrogate(us[0]) && IsLowSurrogate(us[1])
    ensures forall i :: 0 <= i < |us| ==> 0 <= us[i] < 0x10000
  {
    if IsBmp(c) then [c as int]
    else
      var v := c as int - 0x10000;
      [0xD800 + v / 0x400, 0xDC00 + v % 0x400]
  }

  /** The code units of a whole string, in order. */
  function Units(s: string): (us: seq<int>)
    ensures forall i :: 0 <= i < |us| ==> 0 <= us[i] < 0x10000
  {
    if s == [] then [] else CharUnits(s[0]) + Units(s[1..])
  }

  /** JavaScript's `String.prototype.length`. */
  function Length(s: string): nat
  {
    |Units(s)|
  }

  /** The characters of a string as integers, one per character. */
  function CodePoints(s: string): (xs: seq<int>)
    ensures |xs| == |s|
    ensures forall i :: 0 <= i < |s| ==> xs[i] == s[i] as int
  {
    seq(|s|, i requires 0 <= i < |s| => s[i] as int)
  }

  /** Reads code units back into characters. A JavaScript string may hold a lone
      surrogate, but no Dafny string encodes to one, so such input decodes to `None`. */
  function Decode(us: seq<int>): (r: Option<string>)
    decreases |us|
  {
    if us == [] then Some([])
    else if IsHighSurrogate(us[0]) && |us| >= 2 && IsLowSurrogate(us[1]) then
      var c := (0x10000 + (us[0] - 0xD800) * 0x400 + (us[1] - 0xDC00)) as char;
      match Decode(us[2..])
      case None => None
      case Some(rest) => Some([c] + rest)
    else if 0 <= us[0] < 0xD800 || 0xE000 <= us[0] < 0x10000 then
      match Decode(us[1..])
      case None => None
      case Some(rest) => Some([us[0] as char] + rest)
    else None
  }

  /** Decoding the encoding of a string gives the string back. */
  lemma {:induction false} DecodeUnits(s: string)
    ensures Decode(Units(s)) == Some(s)
  {
    if s != [] {
      var c, us, rest := s[0], CharUnits(s[0]), Units(s[1..]);
      DecodeUnits(s[1..]);
      assert Units(s) == us + rest;
      if IsBmp(c) {
        assert (us + rest)[1..] == rest;
      } else {
        var v := c as int - 0x10000;
        assert v == (v / 0x400) * 0x400 + v % 0x400;
        assert (us + rest)[2..] == rest;
      }
      assert [s[0]] + s[1..] == s;
    }
  }

  /** A string is at least as long in code units as in characters, at most twice,
      and exactly as long when every character lies in the Basic Multilingual Plane. */
  lemma {:induction false} LengthBounds(s: string)
    ensures |s| <= Length(s) <= 2 * |s|
    ensures Length(s) == |s| <==> forall i :: 0 <= i < |s| ==> IsBmp(s[i])
  {
    if s != [] {
      LengthBounds(s[1..]);
      assert forall i :: 1 <= i < |s| ==> s[i] == s[1..][i - 1];
    }
  }

  /** Only the empty string has length zero. */
  lemma EmptyLength(s: string)
    ensures Length(s) == 0 <==> s == []
  {
  }
}
