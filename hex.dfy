/**
 * Hexadecimal text as Go's `encoding/hex` reads and writes it: `DecodeString`
 * accepts upper- and lower-case digits in pairs, `EncodeToString` writes
 * lower-case ones.
 */
module Hex {
  import opened Wrappers

  type byte = x: int | 0 <= x < 256

  predicate IsHexDigit(c: char)
  {
    ('0' <= c <= '9') || ('a' <= c <= 'f') || ('A' <= c <= 'F')
  }

  function DigitValue(c: char): (v: int)
    requires IsHexDigit(c)
    ensures 0 <= v < 16
  {
    if '0' <= c <= '9' then c as int - '0' as int
    else if 'a' <= c <= 'f' then c as int - 'a' as int + 10
    else c as int - 'A' as int + 10
  }

  /** The lower-case digit for `v`, the one `EncodeToString` writes. */
  function Digit(v: int): (c: char)
    requires 0 <= v < 16
    ensures IsHexDigit(c) && DigitValue(c) == v
  {
    if v < 10 then ('0' as int + v) as char else ('a' as int + v - 10) as char
  }

  /** A string `DecodeString` accepts: an even number of hex digits. */
  predicate WellFormed(s: string)
  {
    |s| % 2 == 0 && forall i :: 0 <= i < |s| ==> IsHexDigit(s[i])
  }

  /** `hex.DecodeString`: None stands for its error (odd length or a non-hex byte). */
  function Decode(s: string): (r: Option<seq<byte>>)
    ensures r.Some? ==> |r.value| == |s| / 2
    decreases |s|
  {
    if |s| == 0 then Some([])
    else if |s| == 1 || !IsHexDigit(s[0]) || !IsHexDigit(s[1]) then None
    else
      match Decode(s[2..])
      case None => None
      case Some(rest) => Some([DigitValue(s[0]) * 16 + DigitValue(s[1])] + rest)
  }

  /** `hex.EncodeToString`. */
  function Encode(b: seq<byte>): (s: string)
    ensures |s| == 2 * |b|
    ensures WellFormed(s)
  {
    if |b| == 0 then [] else [Digit(b[0] / 16), Digit(b[0] % 16)] + Encode(b[1..])
  }

  /** Decoding succeeds exactly on well-formed text. */
  lemma {:induction false} DecodeSucceedsIff(s: string)
    ensures Decode(s).Some? <==> WellFormed(s)
    decreases |s|
  {
    if |s| >= 2 {
      DecodeSucceedsIff(s[2..]);
      if IsHexDigit(s[0]) && IsHexDigit(s[1]) && WellFormed(s[2..]) {
        forall i | 0 <= i < |s| ensures IsHexDigit(s[i]) {
          if i >= 2 { assert s[i] == s[2..][i - 2]; }
        }
      }
      if WellFormed(s) {
        forall i | 0 <= i < |s| - 2 ensures IsHexDigit(s[2..][i]) {
          assert s[2..][i] == s[i + 2];
        }
      }
    } else if |s| == 1 {
      assert !WellFormed(s);
    }
  }

  /** Byte `i` of the decoded value is the pair of digits at `2 * i`. */
  lemma {:induction false} DecodeAt(s: string, i: nat)
    requires Decode(s).Some? && i < |s| / 2
    ensures IsHexDigit(s[2 * i]) && IsHexDigit(s[2 * i + 1])
    ensures Decode(s).value[i] == DigitValue(s[2 * i]) * 16 + DigitValue(s[2 * i + 1])
    decreases |s|
  {
    if i > 0 {
      DecodeAt(s[2..], i - 1);
    }
  }

  /** What `EncodeToString` writes, `DecodeString` reads back. */
  lemma {:induction false} DecodeEncode(b: seq<byte>)
    ensures Decode(Encode(b)) == Some(b)
  {
    if |b| > 0 {
      DecodeEncode(b[1..]);
      var s := Encode(b);
      assert s[2..] == Encode(b[1..]);
      assert IsHexDigit(s[0]) && IsHexDigit(s[1]);
      assert DigitValue(s[0]) * 16 + DigitValue(s[1]) == b[0];
      assert Decode(s) == Some([b[0]] + b[1..]);
      assert [b[0]] + b[1..] == b;
    }
  }
}
