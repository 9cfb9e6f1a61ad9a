/**
 * The base 64 encoding of section 4 of RFC 4648 (alphabet A-Z a-z 0-9 + /,
 * '=' padding), which `Authentication` applies to the user's credentials.
 * `Decode` is its inverse, the partner the round-trip is proved against.
 */
module Base64 {
  import opened Wrappers
  import opened Chunks

  /** The character for the 6-bit value `v` (Table 1 of RFC 4648). */
  function Symbol(v: int): (c: char)
    requires 0 <= v < 64
    ensures c != '='
  {
    if v < 26 then ('A' as int + v) as char
    else if v < 52 then ('a' as int + v - 26) as char
    else if v < 62 then ('0' as int + v - 52) as char
    else if v == 62 then '+'
    else '/'
  }

  /** The 6-bit value of an alphabet character; None for anything else. */
  function SymbolValue(c: char): (r: Option<int>)
    ensures r.Some? ==> 0 <= r.value < 64 && Symbol(r.value) == c
  {
    if 'A' <= c <= 'Z' then Some(c as int - 'A' as int)
    else if 'a' <= c <= 'z' then Some(c as int - 'a' as int + 26)
    else if '0' <= c <= '9' then Some(c as int - '0' as int + 52)
    else if c == '+' then Some(62)
    else if c == '/' then Some(63)
    else None
  }

  lemma SymbolValueOfSymbol(v: int)
    requires 0 <= v < 64
    ensures SymbolValue(Symbol(v)) == Some(v)
  {
  }

  /** The 4 characters for 3 bytes: their 24 bits cut into four 6-bit values. */
  function Group3(b0: Byte, b1: Byte, b2: Byte): (q: string)
    ensures |q| == 4
  {
    [Symbol(b0 / 4), Symbol((b0 % 4) * 16 + b1 / 16), Symbol((b1 % 16) * 4 + b2 / 64), Symbol(b2 % 64)]
  }

  /** A final group of 2 bytes: three characters and one '='. */
  function Group2(b0: Byte, b1: Byte): (q: string)
    ensures |q| == 4
  {
    [Symbol(b0 / 4), Symbol((b0 % 4) * 16 + b1 / 16), Symbol((b1 % 16) * 4), '=']
  }

  /** A final group of 1 byte: two characters and "==". */
  function Group1(b0: Byte): (q: string)
    ensures |q| == 4
  {
    [Symbol(b0 / 4), Symbol((b0 % 4) * 16), '=', '=']
  }

  /** Every 3 input bytes become 4 characters; a final group of 1 or 2 bytes is padded with '='. */
  function Encode(b: seq<Byte>): (r: string)
    ensures |r| == 4 * ((|b| + 2) / 3)
    decreases |b|
  {
    if |b| == 0 then ""
    else if |b| == 1 then Group1(b[0])
    else if |b| == 2 then Group2(b[0], b[1])
    else Group3(b[0], b[1], b[2]) + Encode(b[3..])
  }

  /**
   * The bytes of one 4-character group, or None if it is not a valid group.
   * The bits a padded group leaves over must be zero (section 3.5 of RFC
   * 4648), so every group that decodes is the encoding of its bytes.
   */
  function DecodeGroup(q: string): Option<seq<Byte>>
    requires |q| == 4
  {
    var v0, v1 := SymbolValue(q[0]), SymbolValue(q[1]);
    if v0.None? || v1.None? then None
    else
      var b0 := v0.value * 4 + v1.value / 16;
      if q[2] == '=' && q[3] == '=' then (if v1.value % 16 == 0 then Some([b0]) else None)
      else
        var v2 := SymbolValue(q[2]);
        if v2.None? then None
        else
          var b1 := (v1.value % 16) * 16 + v2.value / 4;
          if q[3] == '=' then (if v2.value % 4 == 0 then Some([b0, b1]) else None)
          else
            var v3 := SymbolValue(q[3]);
            if v3.None? then None
            else Some([b0, b1, (v2.value % 4) * 64 + v3.value])
  }

  /** Decoding; padding may only appear in the last group. */
  function Decode(s: string): Option<seq<Byte>>
    decreases |s|
  {
    if s == [] then Some([])
    else if |s| < 4 then None
    else
      match DecodeGroup(s[..4])
      case None => None
      case Some(g) =>
        if |g| < 3 then (if |s| == 4 then Some(g) else None)
        else
          match Decode(s[4..])
          case None => None
          case Some(rest) => Some(g + rest)
  }

  lemma GroupOfThree(b0: Byte, b1: Byte, b2: Byte)
    ensures DecodeGroup(Group3(b0, b1, b2)) == Some([b0, b1, b2])
  {
    var v0, v1, v2, v3 := b0 / 4, (b0 % 4) * 16 + b1 / 16, (b1 % 16) * 4 + b2 / 64, b2 % 64;
    SymbolValueOfSymbol(v0);
    SymbolValueOfSymbol(v1);
    SymbolValueOfSymbol(v2);
    SymbolValueOfSymbol(v3);
    assert v0 * 4 + v1 / 16 == b0;
    assert (v1 % 16) * 16 + v2 / 4 == b1;
    assert (v2 % 4) * 64 + v3 == b2;
  }

  lemma GroupOfTwo(b0: Byte, b1: Byte)
    ensures DecodeGroup(Group2(b0, b1)) == Some([b0, b1])
  {
    SymbolValueOfSymbol(b0 / 4);
    SymbolValueOfSymbol((b0 % 4) * 16 + b1 / 16);
    SymbolValueOfSymbol((b1 % 16) * 4);
  }

  lemma GroupOfOne(b0: Byte)
    ensures DecodeGroup(Group1(b0)) == Some([b0])
  {
    SymbolValueOfSymbol(b0 / 4);
    SymbolValueOfSymbol((b0 % 4) * 16);
  }

  /** Decoding undoes encoding, for every byte string. */
  lemma {:induction false} DecodeEncode(b: seq<Byte>)
    ensures Decode(Encode(b)) == Some(b)
    decreases |b|
  {
    if |b| == 1 {
      DecodeEncodeOne(b);
    } else if |b| == 2 {
      DecodeEncodeTwo(b);
    } else if |b| >= 3 {
      DecodeEncode(b[3..]);
      DecodeEncodeStep(b);
    }
  }

  lemma DecodeEncodeOne(b: seq<Byte>)
    requires |b| == 1
    ensures Decode(Encode(b)) == Some(b)
  {
    var e := Encode(b);
    GroupOfOne(b[0]);
    assert e[..4] == e;
    assert b == [b[0]];
  }

  lemma DecodeEncodeTwo(b: seq<Byte>)
    requires |b| == 2
    ensures Decode(Encode(b)) == Some(b)
  {
    var e := Encode(b);
    GroupOfTwo(b[0], b[1]);
    assert e[..4] == e;
    assert b == [b[0], b[1]];
  }

  lemma DecodeEncodeStep(b: seq<Byte>)
    requires |b| >= 3
    requires Decode(Encode(b[3..])) == Some(b[3..])
    ensures Decode(Encode(b)) == Some(b)
  {
    var x := [b[0], b[1], b[2]];
    var g := Group3(b[0], b[1], b[2]);
    EncodeLong(b);
    GroupOfThree(b[0], b[1], b[2]);
    DecodeFullGroup(g, x, Encode(b[3..]), b[3..]);
    SplitAfterThree(b);
  }

  lemma EncodeLong(b: seq<Byte>)
    requires |b| >= 3
    ensures Encode(b) == Group3(b[0], b[1], b[2]) + Encode(b[3..])
  {
  }

  lemma SplitAfterThree(b: seq<Byte>)
    requires |b| >= 3
    ensures [b[0], b[1], b[2]] + b[3..] == b
  {
  }

  /** A full group followed by more text decodes to the group's bytes followed by the rest's. */
  lemma DecodeFullGroup(g: string, x: seq<Byte>, rest: string, y: seq<Byte>)
    requires |g| == 4 && DecodeGroup(g) == Some(x) && |x| == 3
    requires Decode(rest) == Some(y)
    ensures Decode(g + rest) == Some(x + y)
  {
    var s := g + rest;
    assert s[..4] == g;
    assert s[4..] == rest;
  }

  /** A character whose 6-bit value is `v` is the symbol for `v`. */
  lemma SymbolsOfValues(q: string, i: nat, v: int)
    requires i < |q| && SymbolValue(q[i]) == Some(v)
    ensures Symbol(v) == q[i]
  {
  }

  /** A one-byte group that decodes is `Group1` of its byte. */
  lemma GroupOneCanonical(q: string)
    requires |q| == 4 && q[2] == '=' && q[3] == '='
    requires DecodeGroup(q).Some?
    ensures |DecodeGroup(q).value| == 1 && Group1(DecodeGroup(q).value[0]) == q
  {
    var v0, v1 := SymbolValue(q[0]).value, SymbolValue(q[1]).value;
    var b0 := v0 * 4 + v1 / 16;
    assert DecodeGroup(q).value == [b0];
    assert b0 / 4 == v0 && (b0 % 4) * 16 == v1;
    SymbolsOfValues(q, 0, v0);
    SymbolsOfValues(q, 1, v1);
  }

  /** A two-byte group that decodes is `Group2` of its bytes. */
  lemma GroupTwoCanonical(q: string)
    requires |q| == 4 && q[2] != '=' && q[3] == '='
    requires DecodeGroup(q).Some?
    ensures |DecodeGroup(q).value| == 2 && Group2(DecodeGroup(q).value[0], DecodeGroup(q).value[1]) == q
  {
    var v0, v1, v2 := SymbolValue(q[0]).value, SymbolValue(q[1]).value, SymbolValue(q[2]).value;
    var b0, b1 := v0 * 4 + v1 / 16, (v1 % 16) * 16 + v2 / 4;
    assert DecodeGroup(q).value == [b0, b1];
    assert b0 / 4 == v0 && b0 % 4 == v1 / 16;
    assert b1 / 16 == v1 % 16 && (b1 % 16) * 4 == v2;
    SymbolsOfValues(q, 0, v0);
    SymbolsOfValues(q, 1, v1);
    SymbolsOfValues(q, 2, v2);
  }

  /** A full group that decodes is `Group3` of its bytes. */
  lemma GroupThreeCanonical(q: string)
    requires |q| == 4 && q[2] != '=' && q[3] != '='
    requires DecodeGroup(q).Some?
    ensures |DecodeGroup(q).value| == 3
    ensures Group3(DecodeGroup(q).value[0], DecodeGroup(q).value[1], DecodeGroup(q).value[2]) == q
  {
    var v0, v1 := SymbolValue(q[0]).value, SymbolValue(q[1]).value;
    var v2, v3 := SymbolValue(q[2]).value, SymbolValue(q[3]).value;
    var b0, b1, b2 := v0 * 4 + v1 / 16, (v1 % 16) * 16 + v2 / 4, (v2 % 4) * 64 + v3;
    assert DecodeGroup(q).value == [b0, b1, b2];
    assert b0 / 4 == v0 && b0 % 4 == v1 / 16;
    assert b1 / 16 == v1 % 16 && b1 % 16 == v2 / 4;
    assert b2 / 64 == v2 % 4 && b2 % 64 == v3;
    SymbolsOfValues(q, 0, v0);
    SymbolsOfValues(q, 1, v1);
    SymbolsOfValues(q, 2, v2);
    SymbolsOfValues(q, 3, v3);
  }

  /**
   * Decoding accepts only what encoding produces: text that decodes to `b`
   * is exactly the encoding of `b`, so the encoding of a byte string is the
   * only text that stands for it.
   */
  lemma {:induction false} DecodeCanonical(s: string, b: seq<Byte>)
    requires Decode(s) == Some(b)
    ensures Encode(b) == s
    decreases |s|
  {
    if s != [] {
      var q := s[..4];
      var g := DecodeGroup(q).value;
      if q[2] == '=' && q[3] == '=' {
        GroupOneCanonical(q);
        assert s == q;
      } else if q[3] == '=' {
        GroupTwoCanonical(q);
        assert s == q;
      } else {
        GroupThreeCanonical(q);
        var rest := Decode(s[4..]).value;
        DecodeCanonical(s[4..], rest);
        assert b == g + rest;
        assert b[3..] == rest;
        EncodeLong(b);
        assert s == q + s[4..];
      }
    }
  }

  /** Different byte strings have different encodings. */
  lemma EncodeInjective(a: seq<Byte>, b: seq<Byte>)
    ensures Encode(a) == Encode(b) <==> a == b
  {
    if Encode(a) == Encode(b) {
      DecodeEncode(a);
      DecodeEncode(b);
    }
  }
}
