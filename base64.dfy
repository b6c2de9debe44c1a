/** The standard base64 alphabet with canonical padding, as in section 4 of
    RFC 4648 and the `STANDARD` engine of the Rust `base64` crate: encoded
    text always has padding, and decoding rejects missing padding,
    characters outside the alphabet and non-zero trailing bits. */
module Base64 {
  import opened Wrappers

  type byte = x: int | 0 <= x < 256

  /** The alphabet character of a 6-bit value. */
  function Alphabet(v: nat): char
    requires v < 64
  {
    if v < 26 then ('A' as int + v) as char
    else if v < 52 then ('a' as int + (v - 26)) as char
    else if v < 62 then ('0' as int + (v - 52)) as char
    else if v == 62 then '+'
    else '/'
  }

  /** The 6-bit value of an alphabet character; `None` for anything else,
      including the padding character '='. */
  function Index(c: char): (r: Option<nat>)
    ensures r.Some? ==> r.value < 64 && Alphabet(r.value) == c
    ensures c == '=' ==> r.None?
  {
    if 'A' <= c <= 'Z' then Some(c as int - 'A' as int)
    else if 'a' <= c <= 'z' then Some(c as int - 'a' as int + 26)
    else if '0' <= c <= '9' then Some(c as int - '0' as int + 52)
    else if c == '+' then Some(62)
    else if c == '/' then Some(63)
    else None
  }

  lemma IndexAlphabet(v: nat)
    requires v < 64
    ensures Index(Alphabet(v)) == Some(v)
  {
  }

  function EncodeOne(b0: byte): (r: string)
    ensures |r| == 4
  {
    [Alphabet(b0 / 4), Alphabet((b0 % 4) * 16), '=', '=']
  }

  function EncodeTwo(b0: byte, b1: byte): (r: string)
    ensures |r| == 4
  {
    [Alphabet(b0 / 4), Alphabet((b0 % 4) * 16 + b1 / 16), Alphabet((b1 % 16) * 4), '=']
  }

  function EncodeThree(b0: byte, b1: byte, b2: byte): (r: string)
    ensures |r| == 4
  {
    [Alphabet(b0 / 4), Alphabet((b0 % 4) * 16 + b1 / 16),
     Alphabet((b1 % 16) * 4 + b2 / 64), Alphabet(b2 % 64)]
  }

  /** Encoding: every three bytes become four characters, and a final group
      of one or two bytes is padded with '='. */
  function Encode(b: seq<byte>): (r: string)
    ensures |r| == 4 * ((|b| + 2) / 3)
    decreases |b|
  {
    if |b| == 0 then []
    else if |b| == 1 then EncodeOne(b[0])
    else if |b| == 2 then EncodeTwo(b[0], b[1])
    else EncodeThree(b[0], b[1], b[2]) + Encode(b[3..])
  }

  function DecodeOne(c0: char, c1: char): Option<seq<byte>>
  {
    match (Index(c0), Index(c1))
    case (Some(i0), Some(i1)) =>
      if i1 % 16 == 0 then Some([i0 * 4 + i1 / 16]) else None
    case _ => None
  }

  function DecodeTwo(c0: char, c1: char, c2: char): Option<seq<byte>>
  {
    match (Index(c0), Index(c1), Index(c2))
    case (Some(i0), Some(i1), Some(i2)) =>
      if i2 % 4 == 0 then Some([i0 * 4 + i1 / 16, (i1 % 16) * 16 + i2 / 4]) else None
    case _ => None
  }

  function DecodeThree(c0: char, c1: char, c2: char, c3: char): Option<seq<byte>>
  {
    match (Index(c0), Index(c1), Index(c2), Index(c3))
    case (Some(i0), Some(i1), Some(i2), Some(i3)) =>
      Some([i0 * 4 + i1 / 16, (i1 % 16) * 16 + i2 / 4, (i2 % 4) * 64 + i3])
    case _ => None
  }

  /** The last group of four characters, which may end in padding. */
  function DecodeFinal(q: string): Option<seq<byte>>
    requires |q| == 4
  {
    if q[2] == '=' && q[3] == '=' then DecodeOne(q[0], q[1])
    else if q[3] == '=' then DecodeTwo(q[0], q[1], q[2])
    else DecodeThree(q[0], q[1], q[2], q[3])
  }

  /** Decoding: `None` unless the text is a canonical padded encoding. */
  function Decode(s: string): Option<seq<byte>>
    decreases |s|
  {
    if |s| == 0 then Some([])
    else if |s| < 4 then None
    else if |s| == 4 then DecodeFinal(s)
    else match DecodeThree(s[0], s[1], s[2], s[3])
      case None => None
      case Some(head) =>
        match Decode(s[4..])
        case None => None
        case Some(tail) => Some(head + tail)
  }

  lemma DecodeEncodeOne(b0: byte)
    ensures DecodeFinal(EncodeOne(b0)) == Some([b0])
  {
    IndexAlphabet(b0 / 4);
    IndexAlphabet((b0 % 4) * 16);
  }

  lemma DecodeEncodeTwo(b0: byte, b1: byte)
    ensures DecodeFinal(EncodeTwo(b0, b1)) == Some([b0, b1])
  {
    var i1 := (b0 % 4) * 16 + b1 / 16;
    IndexAlphabet(b0 / 4);
    IndexAlphabet(i1);
    IndexAlphabet((b1 % 16) * 4);
    assert i1 / 16 == b0 % 4 && i1 % 16 == b1 / 16;
  }

  lemma DecodeEncodeThree(b0: byte, b1: byte, b2: byte)
    ensures DecodeThree(EncodeThree(b0, b1, b2)[0], EncodeThree(b0, b1, b2)[1],
                        EncodeThree(b0, b1, b2)[2], EncodeThree(b0, b1, b2)[3]) == Some([b0, b1, b2])
  {
    var i1 := (b0 % 4) * 16 + b1 / 16;
    var i2 := (b1 % 16) * 4 + b2 / 64;
    IndexAlphabet(b0 / 4);
    IndexAlphabet(i1);
    IndexAlphabet(i2);
    IndexAlphabet(b2 % 64);
    assert i1 / 16 == b0 % 4 && i1 % 16 == b1 / 16;
    assert i2 / 4 == b1 % 16 && i2 % 4 == b2 / 64;
  }

  lemma DecodeEncodeFinalThree(b0: byte, b1: byte, b2: byte)
    ensures DecodeFinal(EncodeThree(b0, b1, b2)) == Some([b0, b1, b2])
  {
    var q := EncodeThree(b0, b1, b2);
    DecodeEncodeThree(b0, b1, b2);
    assert Index(q[2]).Some? && Index(q[3]).Some?;
  }

  /** Decoding undoes encoding. */
  lemma {:induction false} DecodeEncode(b: seq<byte>)
    ensures Decode(Encode(b)) == Some(b)
    decreases |b|
  {
    if 1 <= |b| <= 3 {
      EncodeFinal(b);
      DecodeOfFinal(Encode(b));
    } else if |b| > 3 {
      DecodeEncode(b[3..]);
      DecodeEncodeLonger(b);
    }
  }

  /** One to three bytes make a single final group, which decodes back to
      them. */
  lemma EncodeFinal(b: seq<byte>)
    requires 1 <= |b| <= 3
    ensures |Encode(b)| == 4 && DecodeFinal(Encode(b)) == Some(b)
  {
    if |b| == 1 {
      DecodeEncodeOne(b[0]);
      assert Encode(b) == EncodeOne(b[0]);
      assert b == [b[0]];
    } else if |b| == 2 {
      DecodeEncodeTwo(b[0], b[1]);
      assert Encode(b) == EncodeTwo(b[0], b[1]);
      assert b == [b[0], b[1]];
    } else {
      DecodeEncodeFinalThree(b[0], b[1], b[2]);
      assert Encode(b) == EncodeThree(b[0], b[1], b[2]);
      assert b == [b[0], b[1], b[2]];
    }
  }

  /** Four characters are decoded as a final group. */
  lemma DecodeOfFinal(s: string)
    requires |s| == 4
    ensures Decode(s) == DecodeFinal(s)
  {
  }

  lemma {:induction false} DecodeEncodeLonger(b: seq<byte>)
    requires |b| > 3
    requires Decode(Encode(b[3..])) == Some(b[3..])
    ensures Decode(Encode(b)) == Some(b)
  {
    EncodeSplit(b);
    DecodeGroupThen(Encode(b), b[..3], b[3..]);
    assert b == b[..3] + b[3..];
  }

  /** A longer encoding starts with the group of its first three bytes,
      which decodes back to them. */
  lemma EncodeSplit(b: seq<byte>)
    requires |b| > 3
    ensures |Encode(b)| > 4
    ensures var q := Encode(b)[..4]; DecodeThree(q[0], q[1], q[2], q[3]) == Some(b[..3])
    ensures Encode(b)[4..] == Encode(b[3..])
  {
    DecodeEncodeThree(b[0], b[1], b[2]);
    assert Encode(b)[..4] == EncodeThree(b[0], b[1], b[2]);
    assert b[..3] == [b[0], b[1], b[2]];
  }

  /** A full group followed by more text decodes to the group's bytes
      followed by the rest's. */
  lemma DecodeGroupThen(s: string, head: seq<byte>, tail: seq<byte>)
    requires |s| > 4 && DecodeThree(s[..4][0], s[..4][1], s[..4][2], s[..4][3]) == Some(head)
    requires Decode(s[4..]) == Some(tail)
    ensures Decode(s) == Some(head + tail)
  {
  }

  lemma EncodeDecodeFinal(q: string, b: seq<byte>)
    requires |q| == 4 && DecodeFinal(q) == Some(b)
    ensures 1 <= |b| <= 3 && Encode(b) == q
  {
    if q[2] == '=' && q[3] == '=' {
      EncodeDecodeOne(q, b);
    } else if q[3] == '=' {
      EncodeDecodeTwo(q, b);
    } else {
      EncodeDecodeThree(q, b);
    }
  }

  lemma EncodeDecodeOne(q: string, b: seq<byte>)
    requires |q| == 4 && q[2] == '=' && q[3] == '='
    requires DecodeOne(q[0], q[1]) == Some(b)
    ensures |b| == 1 && EncodeOne(b[0]) == q
  {
    var i0 := Index(q[0]).value;
    var i1 := Index(q[1]).value;
    assert b[0] / 4 == i0 && (b[0] % 4) * 16 == i1;
  }

  lemma EncodeDecodeTwo(q: string, b: seq<byte>)
    requires |q| == 4 && q[3] == '='
    requires DecodeTwo(q[0], q[1], q[2]) == Some(b)
    ensures |b| == 2 && EncodeTwo(b[0], b[1]) == q
  {
    var i0 := Index(q[0]).value;
    var i1 := Index(q[1]).value;
    var i2 := Index(q[2]).value;
    assert b[0] / 4 == i0 && b[0] % 4 == i1 / 16;
    assert b[1] / 16 == i1 % 16 && (b[1] % 16) * 4 == i2;
  }

  lemma EncodeDecodeThree(q: string, b: seq<byte>)
    requires |q| == 4 && DecodeThree(q[0], q[1], q[2], q[3]) == Some(b)
    ensures |b| == 3 && EncodeThree(b[0], b[1], b[2]) == q
  {
    var i0 := Index(q[0]).value;
    var i1 := Index(q[1]).value;
    var i2 := Index(q[2]).value;
    var i3 := Index(q[3]).value;
    assert b[0] / 4 == i0 && b[0] % 4 == i1 / 16;
    assert b[1] / 16 == i1 % 16 && b[1] % 16 == i2 / 4;
    assert b[2] / 64 == i2 % 4 && b[2] % 64 == i3;
  }

  /** Only canonical text decodes: whatever decodes re-encodes to the same
      text. */
  lemma {:induction false} EncodeDecode(s: string, b: seq<byte>)
    requires Decode(s) == Some(b)
    ensures Encode(b) == s
    decreases |s|
  {
    if |s| == 4 {
      EncodeDecodeFinal(s, b);
    } else if |s| > 4 {
      var head := DecodeThree(s[0], s[1], s[2], s[3]).value;
      var tail := Decode(s[4..]).value;
      EncodeDecodeThree(s[..4], head);
      EncodeDecode(s[4..], tail);
      assert |tail| > 0;
      assert b[3..] == tail;
      assert s == s[..4] + s[4..];
    }
  }

  /** A character that can appear in encoded text. */
  predicate IsEncodedChar(c: char)
  {
    c == '=' || Index(c).Some?
  }

  /** Encoding only produces alphabet characters and padding. */
  lemma {:induction false} EncodeChars(b: seq<byte>)
    ensures forall i :: 0 <= i < |Encode(b)| ==> IsEncodedChar(Encode(b)[i])
    decreases |b|
  {
    if |b| == 1 {
      IndexAlphabet(b[0] / 4);
      IndexAlphabet((b[0] % 4) * 16);
    } else if |b| == 2 {
      IndexAlphabet(b[0] / 4);
      IndexAlphabet((b[0] % 4) * 16 + b[1] / 16);
      IndexAlphabet((b[1] % 16) * 4);
    } else if |b| > 2 {
      IndexAlphabet(b[0] / 4);
      IndexAlphabet((b[0] % 4) * 16 + b[1] / 16);
      IndexAlphabet((b[1] % 16) * 4 + b[2] / 64);
      IndexAlphabet(b[2] % 64);
      EncodeChars(b[3..]);
      var head := EncodeThree(b[0], b[1], b[2]);
      forall i | 0 <= i < |Encode(b)|
        ensures IsEncodedChar(Encode(b)[i])
      {
        if i >= 4 {
          assert Encode(b)[i] == Encode(b[3..])[i - 4];
        }
      }
    }
  }

  /** Canonical decoding, both directions. */
  lemma DecodeIffEncode(s: string, b: seq<byte>)
    ensures Decode(s) == Some(b) <==> Encode(b) == s
  {
    if Decode(s) == Some(b) {
      EncodeDecode(s, b);
    }
    if Encode(b) == s {
      DecodeEncode(b);
    }
  }
}
