/** Bytes, and the UTF-8 encoding of a string (what Python's `str.encode("utf-8")` produces). */
module Utf8 {

  newtype byte = x: int | 0 <= x < 256

  /** The UTF-8 bytes of one Unicode scalar value. */
  function EncodeChar(c: char): (r: seq<byte>)
    ensures 1 <= |r| <= 4
    ensures (c as int < 0x80) <==> (|r| == 1 && r[0] as int == c as int)
  {
    var n := c as int;
    if n < 0x80 then [n as byte]
    else if n < 0x800 then [(0xC0 + n / 64) as byte, (0x80 + n % 64) as byte]
    else if n < 0x10000 then
      [(0xE0 + n / 4096) as byte, (0x80 + (n / 64) % 64) as byte, (0x80 + n % 64) as byte]
    else
      [(0xF0 + n / 262144) as byte, (0x80 + (n / 4096) % 64) as byte,
       (0x80 + (n / 64) % 64) as byte, (0x80 + n % 64) as byte]
  }

  /** Python's `s.encode("utf-8")`. */
  function Encode(s: string): (r: seq<byte>)
    ensures |s| <= |r| <= 4 * |s|
  {
    if s == [] then [] else EncodeChar(s[0]) + Encode(s[1..])
  }

  /** Encoding is compositional: the bytes of `s + t` are those of `s` followed by those of `t`. */
  lemma {:induction false} EncodeAppend(s: string, t: string)
    ensures Encode(s + t) == Encode(s) + Encode(t)
  {
    if s == [] {
      assert s + t == t;
    } else {
      assert (s + t)[0] == s[0];
      assert (s + t)[1..] == s[1..] + t;
      EncodeAppend(s[1..], t);
      calc {
        Encode(s + t);
        EncodeChar(s[0]) + Encode(s[1..] + t);
        EncodeChar(s[0]) + (Encode(s[1..]) + Encode(t));
        (EncodeChar(s[0]) + Encode(s[1..])) + Encode(t);
      }
    }
  }
}

/**
 * Base64 with the standard alphabet and `=` padding, as section 4 of RFC 4648
 * defines it (Python's `base64.b64encode`), and its decoder.
 */
module Base64 {
  import opened Wrappers
  import opened Utf8

  /** The character of Table 1 of RFC 4648 for a 6-bit value. */
  function SextetChar(v: nat): (c: char)
    requires v < 64
  {
    if v < 26 then ('A' as int + v) as char
    else if v < 52 then ('a' as int + (v - 26)) as char
    else if v < 62 then ('0' as int + (v - 52)) as char
    else if v == 62 then '+' else '/'
  }

  /** The 6-bit value of an alphabet character; `None` for any other character. */
  function SextetValue(c: char): (r: Option<nat>)
    ensures r.Some? ==> r.value < 64
  {
    if 'A' <= c <= 'Z' then Some(c as int - 'A' as int)
    else if 'a' <= c <= 'z' then Some(c as int - 'a' as int + 26)
    else if '0' <= c <= '9' then Some(c as int - '0' as int + 52)
    else if c == '+' then Some(62)
    else if c == '/' then Some(63)
    else None
  }

  lemma SextetRoundTrip(v: nat)
    requires v < 64
    ensures SextetValue(SextetChar(v)) == Some(v)
  {
  }

  /** `base64.b64encode`: every 3 bytes become 4 characters; a short last group is padded with `=`. */
  function Encode(b: seq<byte>): (r: string)
    ensures |r| == 4 * ((|b| + 2) / 3)
    decreases |b|
  {
    if |b| == 0 then ""
    else
      var b0 := b[0] as nat;
      if |b| == 1 then
        [SextetChar(b0 / 4), SextetChar((b0 % 4) * 16), '=', '=']
      else
        var b1 := b[1] as nat;
        if |b| == 2 then
          [SextetChar(b0 / 4), SextetChar((b0 % 4) * 16 + b1 / 16), SextetChar((b1 % 16) * 4), '=']
        else
          var b2 := b[2] as nat;
          [SextetChar(b0 / 4), SextetChar((b0 % 4) * 16 + b1 / 16),
           SextetChar((b1 % 16) * 4 + b2 / 64), SextetChar(b2 % 64)] + Encode(b[3..])
  }

  /** Decodes one group of four characters; `=` padding is accepted only where `final` holds. */
  function DecodeGroup(g: string, final: bool): Option<seq<byte>>
    requires |g| == 4
  {
    var v0, v1 := SextetValue(g[0]), SextetValue(g[1]);
    if v0.None? || v1.None? then None
    else
      var x0 := (v0.value * 4 + v1.value / 16) as byte;
      if final && g[2] == '=' && g[3] == '=' then
        if v1.value % 16 == 0 then Some([x0]) else None
      else
        var v2 := SextetValue(g[2]);
        if v2.None? then None
        else
          var x1 := ((v1.value % 16) * 16 + v2.value / 4) as byte;
          if final && g[3] == '=' then
            if v2.value % 4 == 0 then Some([x0, x1]) else None
          else
            var v3 := SextetValue(g[3]);
            if v3.None? then None
            else Some([x0, x1, ((v2.value % 4) * 64 + v3.value) as byte])
  }

  /** The inverse of `Encode`: text that is not canonical Base64 decodes to `None`. */
  function Decode(s: string): Option<seq<byte>>
    decreases |s|
  {
    if |s| == 0 then Some([])
    else if |s| < 4 then None
    else
      var g := DecodeGroup(s[..4], |s| == 4);
      if g.None? then None
      else
        var rest := Decode(s[4..]);
        if rest.None? then None else Some(g.value + rest.value)
  }

  lemma GroupRoundTrip1(b0: nat)
    requires b0 < 256
    ensures DecodeGroup([SextetChar(b0 / 4), SextetChar((b0 % 4) * 16), '=', '='], true) == Some([b0 as byte])
  {
    SextetRoundTrip(b0 / 4);
    SextetRoundTrip((b0 % 4) * 16);
  }

  lemma GroupRoundTrip2(b0: nat, b1: nat)
    requires b0 < 256 && b1 < 256
    ensures DecodeGroup([SextetChar(b0 / 4), SextetChar((b0 % 4) * 16 + b1 / 16), SextetChar((b1 % 16) * 4), '='], true)
         == Some([b0 as byte, b1 as byte])
  {
    SextetRoundTrip(b0 / 4);
    SextetRoundTrip((b0 % 4) * 16 + b1 / 16);
    SextetRoundTrip((b1 % 16) * 4);
  }

  /** Splitting `q * d + r` by `d` gives back `q` and `r`. */
  lemma DivModParts(q: nat, r: nat, d: nat)
    requires (d == 4 || d == 16) && r < d
    ensures (q * d + r) / d == q && (q * d + r) % d == r
  {
    if d == 4 {
      assert q * d + r == 4 * q + r;
    } else {
      assert q * d + r == 16 * q + r;
    }
  }

  /** A full group whose four characters are alphabet characters decodes to three bytes. */
  lemma FullGroup(g: string, final: bool, v0: nat, v1: nat, v2: nat, v3: nat)
    requires |g| == 4 && g[2] != '=' && g[3] != '='
    requires SextetValue(g[0]) == Some(v0) && SextetValue(g[1]) == Some(v1)
    requires SextetValue(g[2]) == Some(v2) && SextetValue(g[3]) == Some(v3)
    ensures DecodeGroup(g, final)
         == Some([(v0 * 4 + v1 / 16) as byte, ((v1 % 16) * 16 + v2 / 4) as byte, ((v2 % 4) * 64 + v3) as byte])
  {
  }

  lemma GroupRoundTrip3(b0: nat, b1: nat, b2: nat, final: bool)
    requires b0 < 256 && b1 < 256 && b2 < 256
    ensures DecodeGroup([SextetChar(b0 / 4), SextetChar((b0 % 4) * 16 + b1 / 16),
                         SextetChar((b1 % 16) * 4 + b2 / 64), SextetChar(b2 % 64)], final)
         == Some([b0 as byte, b1 as byte, b2 as byte])
  {
    var v0, v1, v2, v3 := b0 / 4, (b0 % 4) * 16 + b1 / 16, (b1 % 16) * 4 + b2 / 64, b2 % 64;
    DivModParts(b0 % 4, b1 / 16, 16);
    DivModParts(b1 % 16, b2 / 64, 4);
    SextetRoundTrip(v0);
    SextetRoundTrip(v1);
    SextetRoundTrip(v2);
    SextetRoundTrip(v3);
    FullGroup([SextetChar(v0), SextetChar(v1), SextetChar(v2), SextetChar(v3)], final, v0, v1, v2, v3);
  }

  /** Decoding a group followed by more text is the group's bytes followed by the rest's. */
  lemma DecodeCons(g: string, rest: string, x: seq<byte>, y: seq<byte>)
    requires |g| == 4
    requires DecodeGroup(g, rest == []) == Some(x) && Decode(rest) == Some(y)
    ensures Decode(g + rest) == Some(x + y)
  {
    var s := g + rest;
    assert s[..4] == g && s[4..] == rest;
  }

  lemma DecodeEncodeOne(b: seq<byte>)
    requires |b| == 1
    ensures Decode(Encode(b)) == Some(b)
  {
    var b0 := b[0] as nat;
    GroupRoundTrip1(b0);
    assert Encode(b) == [SextetChar(b0 / 4), SextetChar((b0 % 4) * 16), '=', '='];
    assert b == [b0 as byte];
    DecodeCons(Encode(b), [], b, []);
    assert Encode(b) + [] == Encode(b) && b + [] == b;
  }

  lemma DecodeEncodeTwo(b: seq<byte>)
    requires |b| == 2
    ensures Decode(Encode(b)) == Some(b)
  {
    var b0, b1 := b[0] as nat, b[1] as nat;
    GroupRoundTrip2(b0, b1);
    assert Encode(b) == [SextetChar(b0 / 4), SextetChar((b0 % 4) * 16 + b1 / 16), SextetChar((b1 % 16) * 4), '='];
    assert b == [b0 as byte, b1 as byte];
    DecodeCons(Encode(b), [], b, []);
    assert Encode(b) + [] == Encode(b) && b + [] == b;
  }

  /** Decoding what `Encode` produced gives back exactly the original bytes. */
  lemma {:induction false} DecodeEncode(b: seq<byte>)
    ensures Decode(Encode(b)) == Some(b)
    decreases |b|
  {
    if |b| == 1 {
      DecodeEncodeOne(b);
    } else if |b| == 2 {
      DecodeEncodeTwo(b);
    } else if |b| >= 3 {
      var b0, b1, b2 := b[0] as nat, b[1] as nat, b[2] as nat;
      var g := [SextetChar(b0 / 4), SextetChar((b0 % 4) * 16 + b1 / 16),
                SextetChar((b1 % 16) * 4 + b2 / 64), SextetChar(b2 % 64)];
      var rest := Encode(b[3..]);
      assert Encode(b) == g + rest;
      GroupRoundTrip3(b0, b1, b2, rest == []);
      assert b[..3] == [b0 as byte, b1 as byte, b2 as byte];
      DecodeEncode(b[3..]);
      DecodeCons(g, rest, b[..3], b[3..]);
      assert b == b[..3] + b[3..];
    }
  }

  /** The Base64 text of a string's UTF-8 bytes, as `base64.b64encode(s.encode("utf-8")).decode()`. */
  function EncodeText(s: string): (r: string)
    ensures Decode(r) == Some(Utf8.Encode(s))
  {
    DecodeEncode(Utf8.Encode(s));
    Encode(Utf8.Encode(s))
  }
}
