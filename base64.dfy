/**
 * Base64 as the client uses it. Encoding is `btoa` applied to a string of
 * byte-valued characters, which is the base 64 encoding of RFC 4648,
 * section 4 (alphabet of Table 1, `=` padding to a multiple of four
 * characters). Decoding is `atob`, which runs the "forgiving-base64 decode"
 * of the WHATWG Infra standard: ASCII whitespace is dropped, up to two
 * trailing `=` are optional, and leftover bits of a partial group are
 * discarded. It accepts every string the encoder produces.
 */
module Base64 {
  import opened Wrappers

  type byte = x: int | 0 <= x < 0x100

  type Index = x: int | 0 <= x < 64

  /** The character for a 6-bit value (RFC 4648, section 4, Table 1). */
  function Symbol(v: Index): (c: char)
  {
    if v < 26 then ('A' as int + v) as char
    else if v < 52 then ('a' as int + (v - 26)) as char
    else if v < 62 then ('0' as int + (v - 52)) as char
    else if v == 62 then '+'
    else '/'
  }

  /** The 6-bit value of an alphabet character, None for any other character. */
  function Value(c: char): (r: Option<Index>)
  {
    if 'A' <= c <= 'Z' then Some(c as int - 'A' as int)
    else if 'a' <= c <= 'z' then Some(c as int - 'a' as int + 26)
    else if '0' <= c <= '9' then Some(c as int - '0' as int + 52)
    else if c == '+' then Some(62)
    else if c == '/' then Some(63)
    else None
  }

  predicate IsSymbol(c: char)
  {
    Value(c).Some?
  }

  predicate AllSymbols(s: string)
  {
    forall i :: 0 <= i < |s| ==> IsSymbol(s[i])
  }

  lemma {:induction false} ValueOfSymbol(v: Index)
    ensures Value(Symbol(v)) == Some(v)
  {
  }

  lemma {:induction false} SymbolOfValue(c: char)
    requires IsSymbol(c)
    ensures Symbol(Value(c).value) == c
  {
  }

  /** One full group: three bytes become four characters. */
  function EncodeGroup(b0: byte, b1: byte, b2: byte): (s: string)
    ensures |s| == 4 && AllSymbols(s)
  {
    [Symbol(b0 / 4), Symbol(b0 % 4 * 16 + b1 / 16), Symbol(b1 % 16 * 4 + b2 / 64), Symbol(b2 % 64)]
  }

  /**
   * The encoding without padding: each group of three bytes becomes four
   * characters; a final single byte gives the first two characters of its
   * group and a final pair of bytes the first three, the missing bits being zero.
   */
  function EncodeBody(b: seq<byte>): (s: string)
    ensures |s| == 4 * (|b| / 3) + (if |b| % 3 == 0 then 0 else |b| % 3 + 1)
    ensures AllSymbols(s)
    decreases |b|
  {
    if |b| == 0 then []
    else if |b| == 1 then EncodeGroup(b[0], 0, 0)[..2]
    else if |b| == 2 then EncodeGroup(b[0], b[1], 0)[..3]
    else EncodeGroup(b[0], b[1], b[2]) + EncodeBody(b[3..])
  }

  function Padding(n: nat): string
  {
    if n % 3 == 1 then "==" else if n % 3 == 2 then "=" else ""
  }

  /** `btoa(String.fromCharCode(...b))`. */
  function Encode(b: seq<byte>): (s: string)
    ensures |s| == 4 * ((|b| + 2) / 3)
    ensures |b| % 3 == 0 ==> AllSymbols(s)
  {
    EncodeBody(b) + Padding(|b|)
  }

  predicate IsAsciiWhitespace(c: char)
  {
    c == ' ' || c == '\t' || c == '\n' || c == '\r' || c as int == 0x0C
  }

  function StripWhitespace(s: string): (r: string)
    ensures forall i :: 0 <= i < |r| ==> !IsAsciiWhitespace(r[i])
  {
    if s == [] then []
    else (if IsAsciiWhitespace(s[0]) then [] else [s[0]]) + StripWhitespace(s[1..])
  }

  /** When the length is a multiple of four, one or two trailing `=` are dropped. */
  function StripPadding(s: string): (r: string)
    ensures |r| <= |s|
  {
    if |s| % 4 == 0 && |s| >= 2 && s[|s| - 1] == '=' && s[|s| - 2] == '=' then s[..|s| - 2]
    else if |s| % 4 == 0 && |s| >= 1 && s[|s| - 1] == '=' then s[..|s| - 1]
    else s
  }

  /** The bytes whole in a group of two to four alphabet characters; leftover bits are discarded. */
  function DecodeGroup(s: string): (b: seq<byte>)
    requires AllSymbols(s) && 2 <= |s| <= 4
    ensures |b| == |s| - 1
  {
    var v0, v1 := Value(s[0]).value, Value(s[1]).value;
    var v2 := if |s| > 2 then Value(s[2]).value else 0;
    var v3 := if |s| > 3 then Value(s[3]).value else 0;
    [v0 * 4 + v1 / 16, v1 % 16 * 16 + v2 / 4, v2 % 4 * 64 + v3][..|s| - 1]
  }

  /** Decoding of unpadded alphabet characters, group by group. */
  function DecodeBody(s: string): (b: seq<byte>)
    requires AllSymbols(s) && |s| % 4 != 1
    ensures |b| == 3 * (|s| / 4) + (if |s| % 4 == 0 then 0 else |s| % 4 - 1)
    decreases |s|
  {
    if |s| == 0 then []
    else if |s| < 4 then DecodeGroup(s)
    else DecodeGroup(s[..4]) + DecodeBody(s[4..])
  }

  /** `atob(s)` as bytes; None where `atob` throws InvalidCharacterError. */
  function Decode(s: string): (r: Option<seq<byte>>)
    ensures r.Some? <==> var d := StripPadding(StripWhitespace(s)); |d| % 4 != 1 && AllSymbols(d)
  {
    var d := StripPadding(StripWhitespace(s));
    if |d| % 4 == 1 || !AllSymbols(d) then None
    else Some(DecodeBody(d))
  }

  /** A group decodes back to the bytes it encodes, also when it was cut short. */
  lemma {:induction false} DecodeEncodeGroup(b0: byte, b1: byte, b2: byte, n: nat)
    requires 2 <= n <= 4
    ensures DecodeGroup(EncodeGroup(b0, b1, b2)[..n]) == [b0, b1, b2][..n - 1]
  {
    var v1 := b0 % 4 * 16 + b1 / 16;
    assert v1 / 16 == b0 % 4 && v1 % 16 == b1 / 16;
    var v2 := b1 % 16 * 4 + b2 / 64;
    assert v2 / 4 == b1 % 16 && v2 % 4 == b2 / 64;
    ValueOfSymbol(b0 / 4);
    ValueOfSymbol(v1);
    ValueOfSymbol(v2);
    ValueOfSymbol(b2 % 64);
  }

  lemma {:induction false} DecodeEncodeBody(b: seq<byte>)
    ensures DecodeBody(EncodeBody(b)) == b
    decreases |b|
  {
    if |b| == 1 {
      DecodeEncodeGroup(b[0], 0, 0, 2);
    } else if |b| == 2 {
      DecodeEncodeGroup(b[0], b[1], 0, 3);
    } else if |b| >= 3 {
      var g := EncodeGroup(b[0], b[1], b[2]);
      var s := EncodeBody(b);
      assert s[..4] == g[..4] && s[4..] == EncodeBody(b[3..]);
      DecodeEncodeGroup(b[0], b[1], b[2], 4);
      DecodeEncodeBody(b[3..]);
      assert b == b[..3] + b[3..];
    }
  }

  /** Whitespace removal works run by run: the parts of a concatenation are stripped separately. */
  lemma {:induction false} StripWhitespaceConcat(a: string, b: string)
    ensures StripWhitespace(a + b) == StripWhitespace(a) + StripWhitespace(b)
    decreases |a|
  {
    if a == [] {
      assert a + b == b;
    } else {
      assert (a + b)[0] == a[0] && (a + b)[1..] == a[1..] + b;
      StripWhitespaceConcat(a[1..], b);
    }
  }

  /**
   * Whitespace removal on one character drops it exactly when it is ASCII
   * whitespace; with `StripWhitespaceConcat`, every other character is kept,
   * in its order.
   */
  lemma {:induction false} StripWhitespaceChar(c: char)
    ensures StripWhitespace([c]) == if IsAsciiWhitespace(c) then [] else [c]
  {
    assert [c][1..] == [];
  }

  /** Whitespace between the symbols is ignored: `atob("QU JD")` is `atob("QUJD")`. */
  lemma {:induction false} DecodeIgnoresInnerSpace(a: string, b: string)
    ensures Decode(a + " " + b) == Decode(a + b)
  {
    StripWhitespaceConcat(a + " ", b);
    StripWhitespaceConcat(a, " ");
    StripWhitespaceChar(' ');
    assert StripWhitespace(a + " ") == StripWhitespace(a);
    StripWhitespaceConcat(a, b);
    assert StripWhitespace(a + " " + b) == StripWhitespace(a + b);
  }

  lemma {:induction false} StripWhitespaceNone(s: string)
    requires forall i :: 0 <= i < |s| ==> !IsAsciiWhitespace(s[i])
    ensures StripWhitespace(s) == s
  {
    if s != [] {
      StripWhitespaceNone(s[1..]);
    }
  }

  /** Without whitespace, a length of one more than a multiple of four leaves a lone sixth of a byte, and `atob` throws. */
  lemma {:induction false} DecodeRejectsLoneSymbol(s: string)
    requires forall i :: 0 <= i < |s| ==> !IsAsciiWhitespace(s[i])
    requires |s| % 4 == 1
    ensures Decode(s) == None
  {
    StripWhitespaceNone(s);
  }

  lemma {:induction false} StripPaddingOfEncode(b: seq<byte>)
    ensures StripPadding(Encode(b)) == EncodeBody(b)
  {
    var body := EncodeBody(b);
    var k := |b| / 3;
    assert |body| == 4 * k + (if |b| % 3 == 0 then 0 else |b| % 3 + 1);
    StripPaddingOf(body, k, |b|);
  }

  /** Padding appended to symbols is exactly what `StripPadding` drops. */
  lemma {:induction false} StripPaddingOf(body: string, k: nat, n: nat)
    requires AllSymbols(body)
    requires |body| == 4 * k + (if n % 3 == 0 then 0 else n % 3 + 1)
    ensures StripPadding(body + Padding(n)) == body
  {
    var s := body + Padding(n);
    if n % 3 == 0 {
      assert s == body;
      if |s| > 0 {
        assert IsSymbol(s[|s| - 1]);
      }
    } else if n % 3 == 1 {
      assert |s| == 4 * k + 4;
      assert s[..|s| - 2] == body;
    } else {
      assert |s| == 4 * k + 4;
      assert s[|s| - 2] == body[|body| - 1];
      assert s[..|s| - 1] == body;
    }
  }

  lemma {:induction false} NoWhitespaceInEncode(b: seq<byte>)
    ensures forall i :: 0 <= i < |Encode(b)| ==> !IsAsciiWhitespace(Encode(b)[i])
  {
    var body, s := EncodeBody(b), Encode(b);
    forall i | 0 <= i < |s| ensures !IsAsciiWhitespace(s[i]) {
      if i < |body| {
        assert s[i] == body[i] && IsSymbol(body[i]);
      } else {
        assert s[i] == '=';
      }
    }
  }

  /** What `btoa` produces, `atob` turns back into the same bytes. */
  lemma {:induction false} DecodeEncode(b: seq<byte>)
    ensures Decode(Encode(b)) == Some(b)
  {
    NoWhitespaceInEncode(b);
    StripWhitespaceNone(Encode(b));
    StripPaddingOfEncode(b);
    DecodeEncodeBody(b);
  }
}
