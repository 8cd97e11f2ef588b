/** UTF-8 well-formedness (RFC 3629, section 4), the test `String`
    arguments pass when the instruction data is decoded: a name whose
    bytes are not valid UTF-8 never reaches the handler. */
module Utf8 {
  import opened Numeric

  predicate IsContinuation(b: Byte) {
    0x80 <= b <= 0xBF
  }

  /** The byte after a multi-byte lead: the ranges that exclude overlong
      forms, UTF-16 surrogates and code points above U+10FFFF. */
  predicate SecondByteOk(lead: Byte, b: Byte) {
    if lead == 0xE0 then 0xA0 <= b <= 0xBF
    else if lead == 0xED then 0x80 <= b <= 0x9F
    else if lead == 0xF0 then 0x90 <= b <= 0xBF
    else if lead == 0xF4 then 0x80 <= b <= 0x8F
    else IsContinuation(b)
  }

  /** `s` is a concatenation of well-formed UTF-8 sequences. */
  predicate ValidUtf8(s: Bytes)
    decreases |s|
  {
    if s == [] then true
    else if s[0] <= 0x7F then ValidUtf8(s[1..])
    else if 0xC2 <= s[0] <= 0xDF then
      |s| >= 2 && IsContinuation(s[1]) && ValidUtf8(s[2..])
    else if 0xE0 <= s[0] <= 0xEF then
      |s| >= 3 && SecondByteOk(s[0], s[1]) && IsContinuation(s[2]) && ValidUtf8(s[3..])
    else if 0xF0 <= s[0] <= 0xF4 then
      |s| >= 4 && SecondByteOk(s[0], s[1]) && IsContinuation(s[2]) && IsContinuation(s[3])
      && ValidUtf8(s[4..])
    else false
  }

  /** Every ASCII text is valid UTF-8. */
  lemma {:induction false} AsciiIsValid(s: Bytes)
    requires forall i :: 0 <= i < |s| ==> s[i] <= 0x7F
    ensures ValidUtf8(s)
    decreases |s|
  {
    if s != [] {
      assert forall i :: 0 <= i < |s[1..]| ==> s[1..][i] <= 0x7F by {
        forall i | 0 <= i < |s[1..]| ensures s[1..][i] <= 0x7F {
          assert s[1..][i] == s[i + 1];
        }
      }
      AsciiIsValid(s[1..]);
    }
  }

  /** Bytes that never occur in UTF-8 (0xC0, 0xC1, 0xF5..0xFF) and stray
      continuation bytes make a name invalid wherever they stand first. */
  lemma InvalidLeadRejected(s: Bytes)
    requires s != [] && (0x80 <= s[0] <= 0xC1 || s[0] >= 0xF5)
    ensures !ValidUtf8(s)
  {
  }
}
