/** The string and byte primitives the proxy relies on: ASCII lower-casing and prefix
    tests for header names, white-space trimming of the key file, and the UTF-8 bytes
    of a string (Go's `[]byte(s)`). */
module Text {
  import opened Wrappers

  newtype byte = x: int | 0 <= x < 256

  /** `strings.HasPrefix`. */
  predicate HasPrefix(s: string, prefix: string) {
    |prefix| <= |s| && s[..|prefix|] == prefix
  }

  /** Lower-casing of one character, restricted to ASCII letters. */
  function LowerChar(c: char): char {
    if 'A' <= c <= 'Z' then (c as int + 32) as char else c
  }

  /** `strings.ToLower` on the ASCII letters of `s`. */
  function ToLower(s: string): string {
    if s == [] then [] else [LowerChar(s[0])] + ToLower(s[1..])
  }

  /** Lower-casing works character by character and keeps the length. */
  lemma {:induction false} ToLowerAt(s: string, i: nat)
    requires i < |s|
    ensures |ToLower(s)| == |s|
    ensures ToLower(s)[i] == LowerChar(s[i])
  {
    if i > 0 {
      ToLowerAt(s[1..], i - 1);
    } else if |s| > 1 {
      ToLowerAt(s[1..], 0);
    }
  }

  /** The bytes `strings.TrimSpace` removes on its ASCII path: tab, newline, vertical tab,
      form feed, carriage return and space. */
  predicate IsAsciiSpace(b: byte) {
    b == 9 || b == 10 || b == 11 || b == 12 || b == 13 || b == 32
  }

  /** Drops the leading white space; the result does not start with white space. */
  function TrimLeft(b: seq<byte>): (r: seq<byte>)
    ensures |r| <= |b|
    ensures r != [] ==> !IsAsciiSpace(r[0])
  {
    if b != [] && IsAsciiSpace(b[0]) then TrimLeft(b[1..]) else b
  }

  /** Drops the trailing white space; the result does not end with white space. */
  function TrimRight(b: seq<byte>): (r: seq<byte>)
    ensures |r| <= |b|
    ensures r != [] ==> !IsAsciiSpace(r[|r| - 1])
  {
    if b != [] && IsAsciiSpace(b[|b| - 1]) then TrimRight(b[..|b| - 1]) else b
  }

  /** `TrimLeft` keeps a suffix of `b` and cuts off only white space. */
  lemma {:induction false} TrimLeftCuts(b: seq<byte>)
    ensures TrimLeft(b) == b[|b| - |TrimLeft(b)|..]
    ensures forall k :: 0 <= k < |b| - |TrimLeft(b)| ==> IsAsciiSpace(b[k])
  {
    if b != [] && IsAsciiSpace(b[0]) {
      TrimLeftCuts(b[1..]);
      forall k | 1 <= k < |b| - |TrimLeft(b)|
        ensures IsAsciiSpace(b[k])
      {
        assert b[k] == b[1..][k - 1];
      }
    }
  }

  /** `TrimRight` keeps a prefix of `b` and cuts off only white space. */
  lemma {:induction false} TrimRightCuts(b: seq<byte>)
    ensures TrimRight(b) == b[..|TrimRight(b)|]
    ensures forall k :: |TrimRight(b)| <= k < |b| ==> IsAsciiSpace(b[k])
  {
    if b != [] && IsAsciiSpace(b[|b| - 1]) {
      TrimRightCuts(b[..|b| - 1]);
      forall k | |TrimRight(b)| <= k < |b| - 1
        ensures IsAsciiSpace(b[k])
      {
        assert b[k] == b[..|b| - 1][k];
      }
    }
  }

  /** `strings.TrimSpace` on ASCII white space: the result neither starts nor ends with
      white space. */
  function TrimSpace(b: seq<byte>): (r: seq<byte>)
    ensures |r| <= |b|
    ensures r != [] ==> !IsAsciiSpace(r[0]) && !IsAsciiSpace(r[|r| - 1])
  {
    var left := TrimLeft(b);
    TrimRightCuts(left);
    TrimRight(left)
  }

  /** Trimming keeps a contiguous slice of `b` and cuts off only white space on either side. */
  lemma TrimSpaceSlice(b: seq<byte>)
    ensures exists i, j ::
              (0 <= i <= j <= |b| && TrimSpace(b) == b[i..j]
               && (forall k :: 0 <= k < i ==> IsAsciiSpace(b[k]))
               && (forall k :: j <= k < |b| ==> IsAsciiSpace(b[k])))
  {
    var left := TrimLeft(b);
    var r := TrimRight(left);
    var i := |b| - |left|;
    TrimLeftCuts(b);
    TrimRightCuts(left);
    assert r == b[i..i + |r|];
    assert forall k :: i + |r| <= k < |b| ==> IsAsciiSpace(b[k]) by {
      forall k | i + |r| <= k < |b|
        ensures IsAsciiSpace(b[k])
      {
        assert b[k] == left[k - i];
      }
    }
  }

  /** Trimming twice trims nothing more. */
  lemma TrimSpaceIdempotent(b: seq<byte>)
    ensures TrimSpace(TrimSpace(b)) == TrimSpace(b)
  {
    var t := TrimSpace(b);
    if t != [] {
      assert TrimLeft(t) == t;
      assert TrimRight(t) == t;
    }
  }

  /** The UTF-8 encoding of one Unicode scalar value. */
  function EncodeChar(c: char): (r: seq<byte>)
    ensures 1 <= |r| <= 4
    ensures (c as int < 0x80) <==> |r| == 1
    ensures |r| == 1 ==> r[0] as int == c as int
  {
    var n := c as int;
    if n < 0x80 then [n as byte]
    else if n < 0x800 then [(0xC0 + n / 0x40) as byte, (0x80 + n % 0x40) as byte]
    else if n < 0x10000 then
      [(0xE0 + n / 0x1000) as byte, (0x80 + n / 0x40 % 0x40) as byte, (0x80 + n % 0x40) as byte]
    else
      [(0xF0 + n / 0x40000) as byte, (0x80 + n / 0x1000 % 0x40) as byte,
       (0x80 + n / 0x40 % 0x40) as byte, (0x80 + n % 0x40) as byte]
  }

  /** Go's `[]byte(s)` for a string holding valid UTF-8. */
  function Utf8(s: string): (r: seq<byte>)
    ensures |s| <= |r| <= 4 * |s|
  {
    if s == [] then [] else EncodeChar(s[0]) + Utf8(s[1..])
  }

  /** How many bytes the encoding that starts with `lead` takes, read off its lead byte. */
  function LeadLength(lead: byte): (k: nat)
    ensures 1 <= k <= 4
  {
    if lead < 0x80 then 1 else if lead < 0xE0 then 2 else if lead < 0xF0 then 3 else 4
  }

  /** The code point a one- to four-byte encoding carries: the payload bits of the lead
      byte followed by six bits from each continuation byte. */
  function DecodeScalar(e: seq<byte>): int
    requires 1 <= |e| <= 4
  {
    if |e| == 1 then e[0] as int
    else if |e| == 2 then (e[0] as int - 0xC0) * 0x40 + (e[1] as int - 0x80)
    else if |e| == 3 then
      (e[0] as int - 0xE0) * 0x1000 + (e[1] as int - 0x80) * 0x40 + (e[2] as int - 0x80)
    else
      (e[0] as int - 0xF0) * 0x40000 + (e[1] as int - 0x80) * 0x1000
        + (e[2] as int - 0x80) * 0x40 + (e[3] as int - 0x80)
  }

  /** Reads a byte sequence back as the characters it encodes, one lead byte at a time;
      `None` when an encoding is cut short or carries no Unicode scalar value. */
  function Utf8Decode(b: seq<byte>): Option<string>
    decreases |b|
  {
    if b == [] then Some([])
    else
      var k := LeadLength(b[0]);
      if |b| < k then None
      else
        var n := DecodeScalar(b[..k]);
        if !(0 <= n < 0xD800 || 0xE000 <= n < 0x11_0000) then None
        else
          match Utf8Decode(b[k..])
          case None => None
          case Some(rest) => Some([n as char] + rest)
  }

  /** The lead byte of a character's encoding gives the encoding's length, and the bytes
      carry the character's code point. */
  lemma EncodeCharDecodes(c: char)
    ensures LeadLength(EncodeChar(c)[0]) == |EncodeChar(c)|
    ensures DecodeScalar(EncodeChar(c)) == c as int
  {
    var n := c as int;
    if 0x10000 <= n {
      assert n / 0x1000 == n / 0x40000 * 0x40 + n / 0x1000 % 0x40;
      assert n / 0x40 == n / 0x1000 * 0x40 + n / 0x40 % 0x40;
    } else if 0x800 <= n {
      assert n / 0x40 == n / 0x1000 * 0x40 + n / 0x40 % 0x40;
    }
  }

  /** Decoding the bytes of a string gives back the string. */
  lemma {:induction false} Utf8RoundTrip(s: string)
    ensures Utf8Decode(Utf8(s)) == Some(s)
  {
    if s != [] {
      var e := EncodeChar(s[0]);
      var b := Utf8(s);
      EncodeCharDecodes(s[0]);
      assert b == e + Utf8(s[1..]);
      assert b[..|e|] == e && b[|e|..] == Utf8(s[1..]);
      Utf8RoundTrip(s[1..]);
      assert [s[0]] + s[1..] == s;
    }
  }

  /** Distinct strings have distinct bytes. */
  lemma Utf8Injective(a: string, b: string)
    ensures Utf8(a) == Utf8(b) <==> a == b
  {
    if Utf8(a) == Utf8(b) {
      Utf8RoundTrip(a);
      Utf8RoundTrip(b);
    }
  }
}
