/**
 * Bytes, C strings and UTF-8 text.
 *
 * Host text (Rust `str`, `OsStr`, `Path`) is modelled by its bytes. A C string
 * is a byte string without a 0 byte; its terminator is implicit. Decoding a C
 * string succeeds exactly when its bytes are well-formed UTF-8 in the sense of
 * section 4 of RFC 3629, which is what Rust's `CStr::to_str` checks.
 */
module Text {

  import opened Wrappers

  /** One byte of memory. */
  type Byte = b: int | 0 <= b < 256

  /** The bytes of a C string, without its terminating NUL. */
  type CStr = s: seq<Byte> | 0 !in s

  /** Index of the first 0 byte of `s`, or `|s|` when there is none. */
  function FirstNul(s: seq<Byte>): (k: nat)
    ensures k <= |s|
    ensures forall i :: 0 <= i < k ==> s[i] != 0
    ensures k < |s| ==> s[k] == 0
  {
    if |s| == 0 || s[0] == 0 then 0 else 1 + FirstNul(s[1..])
  }

  lemma FirstNulIsBoundIff(s: seq<Byte>)
    ensures FirstNul(s) < |s| <==> 0 in s
  {
    var k := FirstNul(s);
    if 0 in s {
      var j :| 0 <= j < |s| && s[j] == 0;
      assert !(j < k);
    }
  }

  /** The bytes of an ASCII string literal. */
  function Ascii(s: string): (r: seq<Byte>)
    requires forall i :: 0 <= i < |s| ==> s[i] as int < 128
    ensures |r| == |s| && forall i :: 0 <= i < |s| ==> r[i] == s[i] as int
  {
    seq(|s|, i requires 0 <= i < |s| => s[i] as int)
  }

  predicate IsCont(b: Byte) { 0x80 <= b <= 0xBF }

  /**
   * Length of the well-formed UTF-8 character encoding that starts `s`
   * (the table of section 4 of RFC 3629), or 0 when `s` does not start with one.
   */
  function CharLen(s: seq<Byte>): (n: nat)
    ensures n <= |s| && n <= 4
    ensures |s| > 0 && s[0] < 0x80 ==> n == 1
  {
    if |s| == 0 then 0
    else if s[0] <= 0x7F then 1
    else if 0xC2 <= s[0] <= 0xDF then
      (if |s| >= 2 && IsCont(s[1]) then 2 else 0)
    else if s[0] == 0xE0 then
      (if |s| >= 3 && 0xA0 <= s[1] <= 0xBF && IsCont(s[2]) then 3 else 0)
    else if 0xE1 <= s[0] <= 0xEC || 0xEE <= s[0] <= 0xEF then
      (if |s| >= 3 && IsCont(s[1]) && IsCont(s[2]) then 3 else 0)
    else if s[0] == 0xED then
      (if |s| >= 3 && 0x80 <= s[1] <= 0x9F && IsCont(s[2]) then 3 else 0)
    else if s[0] == 0xF0 then
      (if |s| >= 4 && 0x90 <= s[1] <= 0xBF && IsCont(s[2]) && IsCont(s[3]) then 4 else 0)
    else if 0xF1 <= s[0] <= 0xF3 then
      (if |s| >= 4 && IsCont(s[1]) && IsCont(s[2]) && IsCont(s[3]) then 4 else 0)
    else if s[0] == 0xF4 then
      (if |s| >= 4 && 0x80 <= s[1] <= 0x8F && IsCont(s[2]) && IsCont(s[3]) then 4 else 0)
    else 0
  }

  /** `s` is a sequence of well-formed UTF-8 character encodings. */
  predicate ValidUtf8(s: seq<Byte>)
    decreases |s|
  {
    |s| == 0 || (CharLen(s) > 0 && ValidUtf8(s[CharLen(s)..]))
  }

  /** `CStr::to_str`: the text of a C string, or `None` when it is not UTF-8. */
  function ToStr(c: CStr): (r: Option<seq<Byte>>)
    ensures r.Some? <==> ValidUtf8(c)
    ensures r.Some? ==> r.value == c
  {
    if ValidUtf8(c) then Some(c) else None
  }

  /** A character encoding only depends on its own bytes. */
  lemma CharLenOfPrefix(a: seq<Byte>, b: seq<Byte>)
    requires CharLen(a) > 0
    ensures CharLen(a + b) == CharLen(a)
  {
    assert forall i :: 0 <= i < |a| ==> (a + b)[i] == a[i];
  }

  /** Concatenating two texts gives a text. */
  lemma {:induction false} ValidUtf8Concat(a: seq<Byte>, b: seq<Byte>)
    requires ValidUtf8(a) && ValidUtf8(b)
    ensures ValidUtf8(a + b)
    decreases |a|
  {
    if |a| == 0 {
      assert a + b == b;
    } else {
      var n := CharLen(a);
      CharLenOfPrefix(a, b);
      assert (a + b)[n..] == a[n..] + b;
      ValidUtf8Concat(a[n..], b);
    }
  }

  /** Every ASCII byte string is a text. */
  lemma {:induction false} AsciiIsUtf8(s: seq<Byte>)
    requires forall i :: 0 <= i < |s| ==> s[i] < 0x80
    ensures ValidUtf8(s)
    decreases |s|
  {
    if |s| > 0 {
      assert CharLen(s) == 1;
      AsciiIsUtf8(s[1..]);
    }
  }

  /** An ASCII literal without NUL characters is a C string holding text. */
  lemma AsciiLiteral(s: string)
    requires forall i :: 0 <= i < |s| ==> 0 < s[i] as int < 128
    ensures 0 !in Ascii(s) && ValidUtf8(Ascii(s))
  {
    AsciiIsUtf8(Ascii(s));
  }

}
