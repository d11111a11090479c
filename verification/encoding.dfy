/**
 * How the Python operator's text leaves Qt as C strings and comes back:
 * `QString::toLatin1()`, the NUL that ends a C string, and UTF-8 decoding
 * (strict, as Python's `PyUnicode_FromString` does it). A byte is modelled as
 * a character no greater than U+00FF.
 */
module Encoding {
  import opened Wrappers

  /** Every character is a byte value. */
  predicate IsBytes(s: string)
  {
    forall i :: 0 <= i < |s| ==> s[i] as int <= 0xFF
  }

  /** Printable or control ASCII without NUL: text that survives every conversion here unchanged. */
  predicate IsAsciiText(s: string)
  {
    forall i :: 0 <= i < |s| ==> 0 < s[i] as int < 0x80
  }

  /** The number of UTF-16 code units a `QString` stores for `c`: two for a character above U+FFFF. */
  function Utf16Units(c: char): nat
  {
    if c as int <= 0xFFFF then 1 else 2
  }

  /** `QString::size()`: the number of UTF-16 code units of `s`. */
  function QtLength(s: string): nat
  {
    if s == [] then 0 else Utf16Units(s[0]) + QtLength(s[1..])
  }

  /**
   * `toLatin1()` of one character: the character itself when Latin-1 holds
   * it, otherwise one '?' per UTF-16 code unit.
   */
  function Latin1Char(c: char): (r: string)
    ensures |r| == Utf16Units(c)
  {
    if c as int <= 0xFF then [c]
    else if c as int <= 0xFFFF then "?"
    else "??"
  }

  /** `QString::toLatin1()`: one byte per UTF-16 code unit, '?' for a unit Latin-1 cannot hold. */
  function Latin1(s: string): string
  {
    if s == [] then [] else Latin1Char(s[0]) + Latin1(s[1..])
  }

  /** Text that is already bytes is its own Latin-1 encoding. */
  lemma {:induction false} Latin1OfBytes(s: string)
    requires IsBytes(s)
    ensures Latin1(s) == s
  {
    if s != [] {
      Latin1OfBytes(s[1..]);
      assert [s[0]] + s[1..] == s;
    }
  }

  /**
   * The encoding has one byte per UTF-16 code unit, yields only bytes, and
   * leaves the text unchanged exactly when it is already bytes.
   */
  lemma {:induction false} Latin1Shape(s: string)
    ensures |Latin1(s)| == QtLength(s) && IsBytes(Latin1(s))
    ensures Latin1(s) == s <==> IsBytes(s)
  {
    if s != [] {
      Latin1Shape(s[1..]);
      var head, tail := Latin1Char(s[0]), Latin1(s[1..]);
      assert forall i :: 0 <= i < |head + tail| ==> (head + tail)[i] == if i < |head| then head[i] else tail[i - |head|];
    }
    if IsBytes(s) {
      Latin1OfBytes(s);
    }
  }

  /** The encoding works character by character, so it distributes over concatenation. */
  lemma {:induction false} Latin1Append(a: string, b: string)
    ensures Latin1(a + b) == Latin1(a) + Latin1(b)
  {
    if a != [] {
      assert (a + b)[0] == a[0] && (a + b)[1..] == a[1..] + b;
      Latin1Append(a[1..], b);
    } else {
      assert a + b == b;
    }
  }

  /** A character above U+FFFF is a surrogate pair in a `QString`: "😀" becomes "??". */
  lemma SurrogatePairReplaced()
    ensures Latin1("\U{1F600}") == "??"
    ensures Utf8Decode(CString(Latin1("\U{1F600}"))) == Some("??")
  {
    assert Latin1("\U{1F600}") == "??" + Latin1([]);
    AsciiTextSurvives("??");
  }

  /** A C string built from `b` (`data()`, `set_value`, `as_string`): everything before the first NUL. */
  function CString(b: string): string
  {
    if b == [] || b[0] == '\0' then [] else [b[0]] + CString(b[1..])
  }

  /** The C string is the prefix of `b` that stops just before its first NUL, or all of `b` when it has none. */
  lemma {:induction false} CStringPrefix(b: string)
    ensures var r := CString(b);
            && |r| <= |b| && r == b[..|r|]
            && '\0' !in r
            && (|r| < |b| ==> b[|r|] == '\0')
            && ('\0' !in b ==> r == b)
  {
    if b != [] && b[0] != '\0' {
      CStringPrefix(b[1..]);
      assert b == [b[0]] + b[1..];
    }
  }

  predicate InRange(c: char, lo: int, hi: int)
  {
    lo <= c as int <= hi
  }

  /**
   * The length of the well-formed UTF-8 sequence that starts `b` (the table
   * of well-formed byte sequences in section 3.9 of the Unicode Standard), or
   * 0 when `b` does not start with one.
   */
  function SequenceLength(b: string): (n: nat)
    ensures n <= |b| && n <= 4
  {
    if b == [] then 0
    else
      var b0 := b[0] as int;
      if b0 < 0x80 then 1
      else if 0xC2 <= b0 <= 0xDF then
        (if |b| >= 2 && InRange(b[1], 0x80, 0xBF) then 2 else 0)
      else if 0xE0 <= b0 <= 0xEF then
        var lo := if b0 == 0xE0 then 0xA0 else 0x80;
        var hi := if b0 == 0xED then 0x9F else 0xBF;
        (if |b| >= 3 && InRange(b[1], lo, hi) && InRange(b[2], 0x80, 0xBF) then 3 else 0)
      else if 0xF0 <= b0 <= 0xF4 then
        var lo := if b0 == 0xF0 then 0x90 else 0x80;
        var hi := if b0 == 0xF4 then 0x8F else 0xBF;
        (if |b| >= 4 && InRange(b[1], lo, hi) && InRange(b[2], 0x80, 0xBF) && InRange(b[3], 0x80, 0xBF) then 4 else 0)
      else 0
  }

  /** The code point of the well-formed sequence that starts `b`: always a Unicode scalar value. */
  function CodePoint(b: string): (v: int)
    requires SequenceLength(b) > 0
    ensures 0 <= v < 0xD800 || 0xE000 <= v < 0x11_0000
  {
    var n := SequenceLength(b);
    if n == 1 then b[0] as int
    else if n == 2 then (b[0] as int - 0xC0) * 0x40 + (b[1] as int - 0x80)
    else if n == 3 then
      (b[0] as int - 0xE0) * 0x1000 + (b[1] as int - 0x80) * 0x40 + (b[2] as int - 0x80)
    else
      (b[0] as int - 0xF0) * 0x4_0000 + (b[1] as int - 0x80) * 0x1000
      + (b[2] as int - 0x80) * 0x40 + (b[3] as int - 0x80)
  }

  /** Strict UTF-8 decoding: None when any part of `b` is not a well-formed sequence. */
  function Utf8Decode(b: string): Option<string>
    decreases |b|
  {
    if b == [] then Some([])
    else
      var n := SequenceLength(b);
      if n == 0 then None
      else
        match Utf8Decode(b[n..])
        case None => None
        case Some(rest) => Some([CodePoint(b) as char] + rest)
  }

  /** ASCII bytes decode to themselves. */
  lemma {:induction false} Utf8DecodeAscii(b: string)
    requires forall i :: 0 <= i < |b| ==> b[i] as int < 0x80
    ensures Utf8Decode(b) == Some(b)
  {
    if b != [] {
      assert SequenceLength(b) == 1;
      Utf8DecodeAscii(b[1..]);
      assert [b[0]] + b[1..] == b;
    }
  }

  /** A Latin-1 byte above 0x7F standing alone is not UTF-8: "é" does not decode. */
  lemma LoneLatin1ByteRejected()
    ensures Utf8Decode(Latin1("\U{E9}")) == None
  {
    assert Latin1("\U{E9}") == "\U{E9}";
    assert SequenceLength("\U{E9}") == 0;
  }

  /** ASCII text without NUL goes to bytes, through a C string and back through UTF-8 unchanged. */
  lemma AsciiTextSurvives(s: string)
    requires IsAsciiText(s)
    ensures CString(Latin1(s)) == s
    ensures Utf8Decode(CString(Latin1(s))) == Some(s)
  {
    Latin1OfBytes(s);
    CStringPrefix(s);
    Utf8DecodeAscii(s);
  }

  /** A character outside Latin-1 comes back as '?': a label "α" is restored as "?". */
  lemma NonLatin1Replaced()
    ensures Utf8Decode(CString(Latin1("\U{3B1}"))) == Some("?")
  {
    assert Latin1("\U{3B1}") == "?";
    AsciiTextSurvives("?");
  }
}
