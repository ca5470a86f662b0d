/** Base64 as section 4 of RFC 4648 defines it (the alphabet of its Table 1,
    `=` padding), which is what `base64.b64encode` produces, with a strict
    decoder for canonical text to state the round trip. */
module Base64 {
  import opened Common

  /** The character of a 6-bit value in Table 1 of RFC 4648. */
  function CharOf(v: nat): (c: char)
    requires v < 64
  {
    if v < 26 then ('A' as int + v) as char
    else if v < 52 then ('a' as int + (v - 26)) as char
    else if v < 62 then ('0' as int + (v - 52)) as char
    else if v == 62 then '+'
    else '/'
  }

  predicate IsAlphabet(c: char) {
    'A' <= c <= 'Z' || 'a' <= c <= 'z' || '0' <= c <= '9' || c == '+' || c == '/'
  }

  /** The 6-bit value of an alphabet character. */
  function ValueOf(c: char): (v: nat)
    requires IsAlphabet(c)
    ensures v < 64
  {
    if 'A' <= c <= 'Z' then c as int - 'A' as int
    else if 'a' <= c <= 'z' then c as int - 'a' as int + 26
    else if '0' <= c <= '9' then c as int - '0' as int + 52
    else if c == '+' then 62
    else 63
  }

  /** The alphabet is a bijection between `0..63` and its 64 characters. */
  lemma ValueOfCharOf(v: nat)
    requires v < 64
    ensures IsAlphabet(CharOf(v)) && ValueOf(CharOf(v)) == v
  {
  }

  /** Three bytes, that is 24 bits, as four 6-bit characters. */
  function EncodeGroup(a: byte, b: byte, c: byte): string {
    [CharOf(a / 4), CharOf((a % 4) * 16 + b / 16), CharOf((b % 16) * 4 + c / 64), CharOf(c % 64)]
  }

  /** `base64.b64encode(data).decode()`: whole groups, then a final group of
      one byte padded with `==` or of two bytes padded with `=`. */
  function Encode(data: seq<byte>): (s: string)
    decreases |data|
  {
    if |data| == 0 then []
    else if |data| == 1 then [CharOf(data[0] / 4), CharOf((data[0] % 4) * 16), '=', '=']
    else if |data| == 2 then [CharOf(data[0] / 4), CharOf((data[0] % 4) * 16 + data[1] / 16), CharOf((data[1] % 16) * 4), '=']
    else EncodeGroup(data[0], data[1], data[2]) + Encode(data[3..])
  }

  /** Four characters back to bytes: three for a full group, two or one for
      a padded final group whose unused bits are zero. */
  function DecodeGroup(g: string, last: bool): Option<seq<byte>>
    requires |g| == 4
  {
    if !IsAlphabet(g[0]) || !IsAlphabet(g[1]) then None
    else
      var v0, v1 := ValueOf(g[0]), ValueOf(g[1]);
      if last && g[2] == '=' && g[3] == '=' then
        if v1 % 16 == 0 then Some([v0 * 4 + v1 / 16]) else None
      else if !IsAlphabet(g[2]) then None
      else
        var v2 := ValueOf(g[2]);
        if last && g[3] == '=' then
          if v2 % 4 == 0 then Some([v0 * 4 + v1 / 16, (v1 % 16) * 16 + v2 / 4]) else None
        else if !IsAlphabet(g[3]) then None
        else
          var v3 := ValueOf(g[3]);
          Some([v0 * 4 + v1 / 16, (v1 % 16) * 16 + v2 / 4, (v2 % 4) * 64 + v3])
  }

  /** Canonical base64 text back to its bytes; None for anything else. */
  function Decode(s: string): Option<seq<byte>>
    decreases |s|
  {
    if s == [] then Some([])
    else if |s| < 4 then None
    else
      var head := DecodeGroup(s[..4], |s| == 4);
      if head.None? then None
      else
        var rest := Decode(s[4..]);
        if rest.None? then None else Some(head.value + rest.value)
  }

  /** The 6-bit pieces of three bytes reassemble to the bytes. */
  lemma GroupArithmetic(a: byte, b: byte, c: byte)
    ensures var v0, v1, v2, v3 := a / 4, (a % 4) * 16 + b / 16, (b % 16) * 4 + c / 64, c % 64;
      && v0 < 64 && v1 < 64 && v2 < 64 && v3 < 64
      && v0 * 4 + v1 / 16 == a
      && (v1 % 16) * 16 + v2 / 4 == b
      && (v2 % 4) * 64 + v3 == c
  {
  }

  lemma {:induction false} FullGroupDecodes(a: byte, b: byte, c: byte, last: bool)
    ensures DecodeGroup(EncodeGroup(a, b, c), last) == Some([a, b, c])
  {
    var v0, v1, v2, v3 := a / 4, (a % 4) * 16 + b / 16, (b % 16) * 4 + c / 64, c % 64;
    GroupArithmetic(a, b, c);
    var g := EncodeGroup(a, b, c);
    assert g == [CharOf(v0), CharOf(v1), CharOf(v2), CharOf(v3)];
    ValueOfCharOf(v0);
    ValueOfCharOf(v1);
    ValueOfCharOf(v2);
    ValueOfCharOf(v3);
    assert g[2] != '=' && g[3] != '=';
  }

  /** Four characters for every three bytes or fewer. */
  lemma {:induction false} EncodeLength(data: seq<byte>)
    ensures |Encode(data)| == 4 * ((|data| + 2) / 3)
    decreases |data|
  {
    if |data| > 2 {
      EncodeLength(data[3..]);
      assert |Encode(data)| == 4 + |Encode(data[3..])|;
      assert (|data| + 2) / 3 == 1 + (|data[3..]| + 2) / 3;
    }
  }

  lemma {:induction false} OneByteDecodes(a: byte)
    ensures Decode(Encode([a])) == Some([a])
  {
    var s := Encode([a]);
    ValueOfCharOf(a / 4);
    ValueOfCharOf((a % 4) * 16);
    assert s == [CharOf(a / 4), CharOf((a % 4) * 16), '=', '='];
    assert s[..4] == s && s[4..] == [];
    assert DecodeGroup(s[..4], |s| == 4) == Some([a]);
    assert Decode(s[4..]) == Some([]);
    assert [a] + [] == [a];
  }

  lemma {:induction false} TwoBytesDecode(a: byte, b: byte)
    ensures Decode(Encode([a, b])) == Some([a, b])
  {
    var s := Encode([a, b]);
    ValueOfCharOf(a / 4);
    ValueOfCharOf((a % 4) * 16 + b / 16);
    ValueOfCharOf((b % 16) * 4);
    assert s == [CharOf(a / 4), CharOf((a % 4) * 16 + b / 16), CharOf((b % 16) * 4), '='];
    assert s[..4] == s && s[4..] == [];
    assert DecodeGroup(s[..4], |s| == 4) == Some([a, b]);
    assert Decode(s[4..]) == Some([]);
    assert [a, b] + [] == [a, b];
  }

  lemma {:induction false} ThreeBytesDecode(a: byte, b: byte, c: byte)
    ensures Decode(Encode([a, b, c])) == Some([a, b, c])
  {
    var s := Encode([a, b, c]);
    assert [a, b, c][3..] == [];
    assert Encode([a, b, c][3..]) == [];
    assert s == EncodeGroup(a, b, c) + [];
    assert s[..4] == EncodeGroup(a, b, c) && s[4..] == [];
    FullGroupDecodes(a, b, c, true);
    assert Decode(s[4..]) == Some([]);
    assert [a, b, c] + [] == [a, b, c];
  }

  /** A full group before more text decodes group by group. */
  lemma {:induction false} GroupThenRest(a: byte, b: byte, c: byte, rest: string, tail: seq<byte>)
    requires rest != [] && Decode(rest) == Some(tail)
    ensures Decode(EncodeGroup(a, b, c) + rest) == Some([a, b, c] + tail)
  {
    var g := EncodeGroup(a, b, c);
    var s := g + rest;
    assert s[..4] == g && s[4..] == rest;
    FullGroupDecodes(a, b, c, false);
  }

  /** One, two or three bytes: a single group. */
  lemma {:induction false} ShortDecodes(data: seq<byte>)
    requires |data| <= 3
    ensures Decode(Encode(data)) == Some(data)
  {
    if |data| == 1 {
      assert data == [data[0]];
      OneByteDecodes(data[0]);
    } else if |data| == 2 {
      assert data == [data[0], data[1]];
      TwoBytesDecode(data[0], data[1]);
    } else if |data| == 3 {
      assert data == [data[0], data[1], data[2]];
      ThreeBytesDecode(data[0], data[1], data[2]);
    }
  }

  /** More than three bytes: the first group, then the rest. */
  lemma {:induction false} LongDecodes(data: seq<byte>)
    requires |data| > 3 && Decode(Encode(data[3..])) == Some(data[3..])
    ensures Decode(Encode(data)) == Some(data)
  {
    assert Encode(data) == EncodeGroup(data[0], data[1], data[2]) + Encode(data[3..]);
    EncodeLength(data[3..]);
    GroupThenRest(data[0], data[1], data[2], Encode(data[3..]), data[3..]);
    assert data == [data[0], data[1], data[2]] + data[3..];
  }

  /** Decoding undoes encoding: the text in a data URL carries exactly the
      image's bytes. */
  lemma {:induction false} DecodeEncode(data: seq<byte>)
    ensures Decode(Encode(data)) == Some(data)
    decreases |data|
  {
    if |data| <= 3 {
      ShortDecodes(data);
    } else {
      DecodeEncode(data[3..]);
      LongDecodes(data);
    }
  }

  /** Encoded text uses only the alphabet and the padding character, and
      padding only in the last two places. */
  lemma {:induction false} EncodeAlphabet(data: seq<byte>)
    ensures forall i :: 0 <= i < |Encode(data)| ==>
      IsAlphabet(Encode(data)[i]) || (Encode(data)[i] == '=' && i >= |Encode(data)| - 2)
    decreases |data|
  {
    var s := Encode(data);
    if |data| == 1 {
      ValueOfCharOf(data[0] / 4);
      ValueOfCharOf((data[0] % 4) * 16);
    } else if |data| == 2 {
      ValueOfCharOf(data[0] / 4);
      ValueOfCharOf((data[0] % 4) * 16 + data[1] / 16);
      ValueOfCharOf((data[1] % 16) * 4);
    } else if |data| >= 3 {
      var g := EncodeGroup(data[0], data[1], data[2]);
      var rest := Encode(data[3..]);
      EncodeAlphabet(data[3..]);
      ValueOfCharOf(data[0] / 4);
      ValueOfCharOf((data[0] % 4) * 16 + data[1] / 16);
      ValueOfCharOf((data[1] % 16) * 4 + data[2] / 64);
      ValueOfCharOf(data[2] % 64);
      assert s == g + rest;
      forall i | 0 <= i < |s| ensures IsAlphabet(s[i]) || (s[i] == '=' && i >= |s| - 2) {
        if i >= 4 {
          assert s[i] == rest[i - 4];
        }
      }
    }
  }
}
