/**
 * The few pieces of Go's string library that the logger relies on, stated
 * over Dafny strings (sequences of Unicode scalar values, i.e. Go runes):
 * the UTF-8 byte length that Go's `len` reports on a string,
 * `strings.Repeat(" ", n)` and `strings.TrimSpace`.
 */
module Strings {

  /** Number of bytes in the UTF-8 encoding of one code point. */
  function RuneLen(c: char): (n: nat)
    ensures 1 <= n <= 4
    ensures n == 1 <==> c as int < 0x80
  {
    if c as int < 0x80 then 1
    else if c as int < 0x800 then 2
    else if c as int < 0x1_0000 then 3
    else 4
  }

  /** Go's `len(s)` on a string: the length of its UTF-8 encoding in bytes. */
  function ByteLen(s: string): nat
  {
    if s == [] then 0 else RuneLen(s[0]) + ByteLen(s[1..])
  }

  predicate IsAscii(s: string)
  {
    forall i :: 0 <= i < |s| ==> s[i] as int < 0x80
  }

  /** A string never has fewer bytes than runes. */
  lemma {:induction false} ByteLenAtLeastRunes(s: string)
    ensures ByteLen(s) >= |s|
  {
    if s != [] {
      ByteLenAtLeastRunes(s[1..]);
    }
  }

  /** Bytes and runes agree exactly on ASCII strings. */
  lemma {:induction false} ByteLenIsRunesIffAscii(s: string)
    ensures ByteLen(s) == |s| <==> IsAscii(s)
  {
    if s != [] {
      ByteLenIsRunesIffAscii(s[1..]);
      ByteLenAtLeastRunes(s[1..]);
      if IsAscii(s) {
        assert IsAscii(s[1..]) by {
          forall i | 0 <= i < |s[1..]| ensures s[1..][i] as int < 0x80 {
            assert s[1..][i] == s[i + 1];
          }
        }
      } else if s[0] as int < 0x80 {
        assert !IsAscii(s[1..]) by {
          var j :| 0 <= j < |s| && s[j] as int >= 0x80;
          assert s[1..][j - 1] == s[j];
        }
      }
    }
  }

  /** Every character of `s` is the blank ' '. */
  predicate AllBlank(s: string)
  {
    forall i :: 0 <= i < |s| ==> s[i] == ' '
  }

  /** `strings.Repeat(" ", n)`: exactly n blanks. */
  function Blank(n: nat): (r: string)
    ensures |r| == n
    ensures AllBlank(r)
  {
    if n == 0 then "" else " " + Blank(n - 1)
  }

  /** Go's `unicode.IsSpace`: the Unicode White_Space characters. */
  predicate IsSpace(c: char)
  {
    var n := c as int;
    (0x09 <= n <= 0x0D) || n == 0x20 || n == 0x85 || n == 0xA0 || n == 0x1680 ||
    (0x2000 <= n <= 0x200A) || n == 0x2028 || n == 0x2029 || n == 0x202F ||
    n == 0x205F || n == 0x3000
  }

  predicate AllSpace(s: string)
  {
    forall i :: 0 <= i < |s| ==> IsSpace(s[i])
  }

  /** The length of the longest all-blank prefix of `s`. */
  function LeadingSpaces(s: string): (k: nat)
    ensures k <= |s|
    ensures AllSpace(s[..k])
    ensures k < |s| ==> !IsSpace(s[k])
  {
    if s == [] || !IsSpace(s[0]) then 0
    else
      var k := 1 + LeadingSpaces(s[1..]);
      assert forall i :: 1 <= i < k ==> s[..k][i] == s[1..][..k - 1][i - 1];
      k
  }

  /** The length of the longest all-blank suffix of `s`. */
  function TrailingSpaces(s: string): (k: nat)
    ensures k <= |s|
    ensures AllSpace(s[|s| - k..])
    ensures k < |s| ==> !IsSpace(s[|s| - 1 - k])
  {
    if s == [] || !IsSpace(s[|s| - 1]) then 0
    else
      var init := s[..|s| - 1];
      var k := 1 + TrailingSpaces(init);
      assert s[|s| - k..] == init[|init| - (k - 1)..] + [s[|s| - 1]];
      k
  }

  /**
   * `strings.TrimSpace`: `s` without its leading and trailing white space.
   * The result is the slice of `s` that starts after the leading blanks,
   * everything after it is blank, and it neither starts nor ends with a blank.
   */
  function TrimSpace(s: string): (r: string)
    ensures LeadingSpaces(s) + |r| <= |s|
    ensures r == s[LeadingSpaces(s)..LeadingSpaces(s) + |r|]
    ensures AllSpace(s[LeadingSpaces(s) + |r|..])
    ensures r != "" ==> !IsSpace(r[0]) && !IsSpace(r[|r| - 1])
    ensures r == "" <==> AllSpace(s)
  {
    var tail := s[LeadingSpaces(s)..];
    var r := tail[..|tail| - TrailingSpaces(tail)];
    assert s[LeadingSpaces(s) + |r|..] == tail[|tail| - TrailingSpaces(tail)..];
    assert r == "" ==> AllSpace(s) by {
      if r == "" {
        assert s[..LeadingSpaces(s)] == s;
      }
    }
    r
  }

  /** Trimming twice trims nothing more. */
  lemma TrimSpaceIdempotent(s: string)
    ensures TrimSpace(TrimSpace(s)) == TrimSpace(s)
  {
  }
}
