/** The pieces of Rust's string formatting that the report relies on: the byte
    length `str::len()`, the `{}` rendering of an unsigned integer, and the
    `{:<w$}` / `{:>w$}` alignment of a cell, which pads by characters. */
module Fmt {

  /** The number of bytes in the UTF-8 encoding of `c`. */
  function CharBytes(c: char): (n: nat)
    ensures 1 <= n <= 4
    ensures n == 1 <==> c as int < 0x80
  {
    if c as int < 0x80 then 1
    else if c as int < 0x800 then 2
    else if c as int < 0x1_0000 then 3
    else 4
  }

  /** `str::len()`: the length of the UTF-8 encoding of `s`, in bytes. */
  function ByteLen(s: string): nat
  {
    if s == [] then 0 else ByteLen(s[..|s| - 1]) + CharBytes(s[|s| - 1])
  }

  predicate Ascii(s: string)
  {
    forall i :: 0 <= i < |s| ==> s[i] as int < 0x80
  }

  /** A string has at least as many bytes as characters, and exactly as many
      when it is ASCII. */
  lemma {:induction false} ByteLenAtLeastChars(s: string)
    ensures |s| <= ByteLen(s)
    ensures ByteLen(s) == |s| <==> Ascii(s)
  {
    if s != [] {
      var pre := s[..|s| - 1];
      ByteLenAtLeastChars(pre);
      if Ascii(s) {
        assert Ascii(pre) by {
          forall i | 0 <= i < |pre| ensures pre[i] as int < 0x80 {
            assert pre[i] == s[i];
          }
        }
      }
      if !Ascii(s) && CharBytes(s[|s| - 1]) == 1 {
        var i :| 0 <= i < |s| && s[i] as int >= 0x80;
        assert i < |s| - 1;
        assert pre[i] == s[i];
      }
    }
  }

  /** Byte lengths add up over concatenation. */
  lemma {:induction false} ByteLenConcat(a: string, b: string)
    ensures ByteLen(a + b) == ByteLen(a) + ByteLen(b)
  {
    if b == [] {
      assert a + b == a;
    } else {
      var pre := b[..|b| - 1];
      ByteLenConcat(a, pre);
      assert (a + b)[..|a + b| - 1] == a + pre;
    }
  }

  function Spaces(n: nat): (s: string)
    ensures |s| == n && forall i :: 0 <= i < n ==> s[i] == ' '
  {
    seq(n, _ => ' ')
  }

  function Max(a: nat, b: nat): nat
  {
    if a < b then b else a
  }

  /** `{:<w$}`: `s` followed by spaces up to `w` characters; a longer `s` is kept whole. */
  function PadEnd(s: string, w: nat): (r: string)
    ensures |r| == Max(|s|, w)
    ensures r[..|s|] == s
    ensures forall i :: |s| <= i < |r| ==> r[i] == ' '
  {
    if |s| < w then s + Spaces(w - |s|) else s
  }

  /** `{:>w$}`: spaces up to `w` characters followed by `s`; a longer `s` is kept whole. */
  function PadStart(s: string, w: nat): (r: string)
    ensures |r| == Max(|s|, w)
    ensures r[|r| - |s|..] == s
    ensures forall i :: 0 <= i < |r| - |s| ==> r[i] == ' '
  {
    if |s| < w then Spaces(w - |s|) + s else s
  }

  predicate IsDigit(c: char)
  {
    '0' <= c <= '9'
  }

  function DigitChar(d: nat): (c: char)
    requires d < 10
    ensures IsDigit(c) && c as int - '0' as int == d
  {
    ('0' as int + d) as char
  }

  /** The `{}` rendering of an unsigned integer: decimal digits, no sign, no
      leading zero. */
  function NatToString(n: nat): (s: string)
    ensures s != [] && Ascii(s)
    ensures forall i :: 0 <= i < |s| ==> IsDigit(s[i])
    ensures s[0] == '0' ==> s == "0"
  {
    if n < 10 then [DigitChar(n)]
    else NatToString(n / 10) + [DigitChar(n % 10)]
  }

  /** The number a string of decimal digits denotes. */
  function DigitsValue(s: string): nat
    requires forall i :: 0 <= i < |s| ==> IsDigit(s[i])
  {
    if s == [] then 0
    else
      assert IsDigit(s[|s| - 1]);
      DigitsValue(s[..|s| - 1]) * 10 + (s[|s| - 1] as int - '0' as int)
  }

  /** Reading the rendered digits back gives the number. */
  lemma {:induction false} NatToStringRoundTrip(n: nat)
    ensures DigitsValue(NatToString(n)) == n
  {
    var s := NatToString(n);
    if n >= 10 {
      NatToStringRoundTrip(n / 10);
      assert s[..|s| - 1] == NatToString(n / 10);
    }
  }

  /** Different numbers render differently. */
  lemma NatToStringInjective(m: nat, n: nat)
    requires NatToString(m) == NatToString(n)
    ensures m == n
  {
    NatToStringRoundTrip(m);
    NatToStringRoundTrip(n);
  }
}
