/**
 * Standard padded base64 (section 4 of RFC 4648), the payload encoding of `json://` URIs:
 * `Buffer.from(json, "utf8").toString("base64")` and its reverse `Buffer.from(p, "base64")`.
 */
module Base64 {
  import opened Wrappers

  newtype byte = x: int | 0 <= x < 256

  /** The 64-character alphabet of Table 1 in RFC 4648: A-Z, a-z, 0-9, '+', '/'. */
  function EncodeChar(v: int): (c: char)
    requires 0 <= v < 64
  {
    if v < 26 then ('A' as int + v) as char
    else if v < 52 then ('a' as int + (v - 26)) as char
    else if v < 62 then ('0' as int + (v - 52)) as char
    else if v == 62 then '+'
    else '/'
  }

  function DecodeChar(c: char): (r: Option<int>)
    ensures r.Some? ==> 0 <= r.value < 64 && EncodeChar(r.value) == c
  {
    if 'A' <= c <= 'Z' then Some(c as int - 'A' as int)
    else if 'a' <= c <= 'z' then Some(c as int - 'a' as int + 26)
    else if '0' <= c <= '9' then Some(c as int - '0' as int + 52)
    else if c == '+' then Some(62)
    else if c == '/' then Some(63)
    else None
  }

  lemma DecodeEncodeChar(v: int)
    requires 0 <= v < 64
    ensures DecodeChar(EncodeChar(v)) == Some(v)
  {
  }

  predicate IsAlphabet(c: char) { DecodeChar(c).Some? }

  /** Three bytes become four characters of six bits each. */
  function EncodeTriple(b0: byte, b1: byte, b2: byte): (r: string) {
    [EncodeChar(b0 as int / 4),
     EncodeChar((b0 as int % 4) * 16 + b1 as int / 16),
     EncodeChar((b1 as int % 16) * 4 + b2 as int / 64),
     EncodeChar(b2 as int % 64)]
  }

  /** The final quantum: one byte gives two characters and "==", two bytes three and "=". */
  function EncodeTail(bs: seq<byte>): (r: string)
    requires 1 <= |bs| <= 2
  {
    if |bs| == 1 then
      [EncodeChar(bs[0] as int / 4), EncodeChar((bs[0] as int % 4) * 16)] + "=="
    else
      [EncodeChar(bs[0] as int / 4),
       EncodeChar((bs[0] as int % 4) * 16 + bs[1] as int / 16),
       EncodeChar((bs[1] as int % 16) * 4)] + "="
  }

  function Encode(bs: seq<byte>): (s: string)
    ensures |s| == 4 * ((|bs| + 2) / 3)
    decreases |bs|
  {
    if |bs| == 0 then ""
    else if |bs| < 3 then EncodeTail(bs)
    else EncodeTriple(bs[0], bs[1], bs[2]) + Encode(bs[3..])
  }

  /** Decodes one group of four characters, the last of which may carry padding. */
  function DecodeQuad(q: string, last: bool): (r: Option<seq<byte>>)
    requires |q| == 4
  {
    var a, b, c, d := DecodeChar(q[0]), DecodeChar(q[1]), DecodeChar(q[2]), DecodeChar(q[3]);
    if a.None? || b.None? then None
    else
      var x0 := a.value * 4 + b.value / 16;
      if c.Some? && d.Some? then
        Some([x0 as byte,
              ((b.value % 16) * 16 + c.value / 4) as byte,
              ((c.value % 4) * 64 + d.value) as byte])
      else if last && c.Some? && q[3] == '=' then
        Some([x0 as byte, ((b.value % 16) * 16 + c.value / 4) as byte])
      else if last && q[2] == '=' && q[3] == '=' then
        Some([x0 as byte])
      else None
  }

  /** Strict decoding: whole groups of four, padding only in the last group. */
  function Decode(s: string): (r: Option<seq<byte>>)
    decreases |s|
  {
    if s == "" then Some([])
    else if |s| < 4 then None
    else
      match DecodeQuad(s[..4], |s| == 4)
      case None => None
      case Some(head) =>
        match Decode(s[4..])
        case None => None
        case Some(rest) => Some(head + rest)
  }

  lemma TripleRoundTrip(b0: byte, b1: byte, b2: byte, last: bool)
    ensures DecodeQuad(EncodeTriple(b0, b1, b2), last) == Some([b0, b1, b2])
  {
    var x0, x1, x2 := b0 as int, b1 as int, b2 as int;
    var c0, c1, c2, c3 := x0 / 4, (x0 % 4) * 16 + x1 / 16, (x1 % 16) * 4 + x2 / 64, x2 % 64;
    DecodeEncodeChar(c0); DecodeEncodeChar(c1); DecodeEncodeChar(c2); DecodeEncodeChar(c3);
    assert c1 / 16 == x0 % 4 && c1 % 16 == x1 / 16;
    assert c2 / 4 == x1 % 16 && c2 % 4 == x2 / 64;
  }

  lemma TailRoundTrip(bs: seq<byte>)
    requires 1 <= |bs| <= 2
    ensures DecodeQuad(EncodeTail(bs), true) == Some(bs)
  {
    var x0 := bs[0] as int;
    DecodeEncodeChar(x0 / 4);
    var q := EncodeTail(bs);
    assert DecodeChar('=') == None;
    if |bs| == 1 {
      DecodeEncodeChar((x0 % 4) * 16);
      assert ((x0 % 4) * 16) / 16 == x0 % 4;
      assert q[2] == '=' && q[3] == '=';
      assert q[0] == EncodeChar(x0 / 4) && q[1] == EncodeChar((x0 % 4) * 16);
      assert (x0 / 4) * 4 + ((x0 % 4) * 16) / 16 == x0;
      assert bs == [bs[0]];
    } else {
      var x1 := bs[1] as int;
      var c1, c2 := (x0 % 4) * 16 + x1 / 16, (x1 % 16) * 4;
      DecodeEncodeChar(c1); DecodeEncodeChar(c2);
      assert c1 / 16 == x0 % 4 && c1 % 16 == x1 / 16;
      assert c2 / 4 == x1 % 16;
      assert q[3] == '=' && q[0] == EncodeChar(x0 / 4) && q[1] == EncodeChar(c1) && q[2] == EncodeChar(c2);
      assert (c1 % 16) * 16 + c2 / 4 == x1;
      assert bs == [bs[0], bs[1]];
    }
  }

  /** Decoding a group of four followed by more text. */
  lemma DecodeCons(t: string, rest: string, head: seq<byte>, tail: seq<byte>)
    requires |t| == 4
    requires DecodeQuad(t, rest == "") == Some(head)
    requires Decode(rest) == Some(tail)
    ensures Decode(t + rest) == Some(head + tail)
  {
    var s := t + rest;
    assert s[..4] == t && s[4..] == rest;
  }

  /** Decoding an encoding gives back exactly the bytes. */
  lemma {:induction false} RoundTrip(bs: seq<byte>)
    ensures Decode(Encode(bs)) == Some(bs)
    decreases |bs|
  {
    if |bs| == 0 {
    } else if |bs| < 3 {
      ShortRoundTrip(bs);
    } else {
      RoundTrip(bs[3..]);
      GroupRoundTrip(bs);
    }
  }

  /** One group of three bytes in front of a part that already decodes back. */
  lemma GroupRoundTrip(bs: seq<byte>)
    requires |bs| >= 3 && Decode(Encode(bs[3..])) == Some(bs[3..])
    ensures Decode(Encode(bs)) == Some(bs)
  {
    EncodeStep(bs);
    StepRoundTrip(bs[0], bs[1], bs[2], Encode(bs[3..]), bs[3..]);
    SplitThree(bs);
  }

  lemma SplitThree(bs: seq<byte>)
    requires |bs| >= 3
    ensures [bs[0], bs[1], bs[2]] + bs[3..] == bs
  {
  }

  lemma ShortRoundTrip(bs: seq<byte>)
    requires 1 <= |bs| < 3
    ensures Decode(Encode(bs)) == Some(bs)
  {
    TailRoundTrip(bs);
    DecodeCons(EncodeTail(bs), "", bs, []);
    assert EncodeTail(bs) + "" == Encode(bs);
    assert bs + [] == bs;
  }

  lemma EncodeStep(bs: seq<byte>)
    requires |bs| >= 3
    ensures Encode(bs) == EncodeTriple(bs[0], bs[1], bs[2]) + Encode(bs[3..])
  {
  }

  lemma StepRoundTrip(b0: byte, b1: byte, b2: byte, enc: string, tail: seq<byte>)
    requires Decode(enc) == Some(tail)
    ensures Decode(EncodeTriple(b0, b1, b2) + enc) == Some([b0, b1, b2] + tail)
  {
    TripleRoundTrip(b0, b1, b2, enc == "");
    DecodeCons(EncodeTriple(b0, b1, b2), enc, [b0, b1, b2], tail);
  }

  /** Every encoded character is from the alphabet or is a trailing '='. */
  lemma {:induction false} EncodeAlphabet(bs: seq<byte>)
    ensures forall i :: 0 <= i < |Encode(bs)| ==> IsAlphabet(Encode(bs)[i]) || Encode(bs)[i] == '='
    ensures forall i :: 0 <= i < |Encode(bs)| && Encode(bs)[i] == '=' ==> |Encode(bs)| - 2 <= i
    decreases |bs|
  {
    var s := Encode(bs);
    if |bs| >= 3 {
      EncodeAlphabet(bs[3..]);
      var t := EncodeTriple(bs[0], bs[1], bs[2]);
      assert s == t + Encode(bs[3..]);
      var x0, x1, x2 := bs[0] as int, bs[1] as int, bs[2] as int;
      DecodeEncodeChar(x0 / 4); DecodeEncodeChar((x0 % 4) * 16 + x1 / 16);
      DecodeEncodeChar((x1 % 16) * 4 + x2 / 64); DecodeEncodeChar(x2 % 64);
    } else if |bs| >= 1 {
      var x0 := bs[0] as int;
      DecodeEncodeChar(x0 / 4);
      if |bs| == 1 {
        DecodeEncodeChar((x0 % 4) * 16);
      } else {
        var x1 := bs[1] as int;
        DecodeEncodeChar((x0 % 4) * 16 + x1 / 16); DecodeEncodeChar((x1 % 16) * 4);
      }
    }
  }
}
