/**
 * NUL-terminated UTF-16 buffers as the shell hands them back, and their
 * conversion to host strings.
 *
 * Memory is a sequence of 16-bit code units behind a pointer that may be
 * nil. Decoding follows the rules of Go's unicode/utf16 package, which
 * syscall.UTF16ToString applies: a unit outside the surrogate range is its own
 * code point, a high surrogate followed by a low surrogate forms one
 * supplementary code point, and any other surrogate becomes U+FFFD.
 */
module Utf16 {

  /** A `*uint16` as the binding receives it: nil, or the units it points at. */
  /** A `uint16` code unit. */
  type Unit = x: int | 0 <= x < 0x1_0000

  datatype Ptr = Null | Buf(units: seq<Unit>)

  /** A pointer that can be scanned safely: nil, or with a 0 unit somewhere. */
  type CStr = p: Ptr | p.Null? || 0 in p.units witness Null

  const Replacement: char := 0xFFFD as char

  predicate IsHighSurrogate(u: Unit) { 0xD800 <= u < 0xDC00 }
  predicate IsLowSurrogate(u: Unit) { 0xDC00 <= u < 0xE000 }

  /** The code point of a surrogate pair. */
  function Combine(hi: Unit, lo: Unit): (c: char)
    requires IsHighSurrogate(hi) && IsLowSurrogate(lo)
    ensures 0x10000 <= c as int <= 0x10FFFF
  {
    (0x10000 + (hi - 0xD800) * 0x400 + (lo - 0xDC00)) as char
  }

  /** UTF-16 decoding: every unit or surrogate pair yields exactly one character. */
  function Decode(units: seq<Unit>): (s: string)
    ensures |s| <= |units|
    ensures |s| == 0 <==> |units| == 0
    decreases |units|
  {
    if |units| == 0 then ""
    else
      var u := units[0];
      if u < 0xD800 || 0xE000 <= u then [u as char] + Decode(units[1..])
      else if IsHighSurrogate(u) && 2 <= |units| && IsLowSurrogate(units[1]) then
        [Combine(u, units[1])] + Decode(units[2..])
      else [Replacement] + Decode(units[1..])
  }

  /** Position of the terminating NUL: the first 0 unit. */
  function FirstNul(units: seq<Unit>): (k: nat)
    requires 0 in units
    ensures k < |units| && units[k] == 0
    ensures forall j :: 0 <= j < k ==> units[j] != 0
  {
    if units[0] == 0 then 0 else 1 + FirstNul(units[1..])
  }

  /** The host string a C string stands for: "" for nil, else the decoded units before the NUL. */
  function CString(p: CStr): string
  {
    if p.Null? then "" else Decode(p.units[..FirstNul(p.units)])
  }

  /** The string depends only on the units before the first NUL: whatever follows it is never read. */
  lemma {:induction false} CStringStopsAtNul(text: seq<Unit>, rest: seq<Unit>)
    requires 0 !in text
    ensures CString(Buf(text + [0] + rest)) == Decode(text)
  {
    var units := text + [0] + rest;
    assert forall j :: 0 <= j < |text| ==> units[j] == text[j];
    assert units[|text|] == 0;
    assert FirstNul(units) == |text|;
    assert units[..|text|] == text;
  }

  /** A nil pointer and a buffer whose first unit is NUL are exactly the empty strings. */
  lemma CStringEmptyIff(p: CStr)
    ensures CString(p) == "" <==> p.Null? || p.units[0] == 0
  {
    if p.Buf? {
      var k := FirstNul(p.units);
      assert |p.units[..k]| == k;
    }
  }
}
