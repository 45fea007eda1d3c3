/** Unpadded base64url (RFC 4648, section 5) and dot-separated text. */
module Base64 {
  import opened Json

  type Byte = n: nat | n < 256 witness 0

  type Sextet = n: nat | n < 64 witness 0

  // ---- alphabet ----------------------------------------------------------

  function CharOf(d: Sextet): char {
    if d < 26 then 'A' + d as char
    else if d < 52 then 'a' + (d - 26) as char
    else if d < 62 then '0' + (d - 52) as char
    else if d == 62 then '-' else '_'
  }

  function DigitOf(c: char): Option<Sextet> {
    if 'A' <= c <= 'Z' then Some((c - 'A') as nat)
    else if 'a' <= c <= 'z' then Some((c - 'a') as nat + 26)
    else if '0' <= c <= '9' then Some((c - '0') as nat + 52)
    else if c == '-' then Some(62)
    else if c == '_' then Some(63)
    else None
  }

  lemma DigitRoundTrip(d: Sextet)
    ensures DigitOf(CharOf(d)) == Some(d) && CharOf(d) != '.'
  {
  }

  lemma CharRoundTrip(c: char)
    requires DigitOf(c).Some?
    ensures CharOf(DigitOf(c).value) == c
  {
  }

  // ---- encoding ----------------------------------------------------------

  function D1(a: Byte): Sextet { a / 4 }
  function D2(a: Byte, b: Byte): Sextet { a % 4 * 16 + b / 16 }
  function D3(b: Byte, c: Byte): Sextet { b % 16 * 4 + c / 64 }
  function D4(c: Byte): Sextet { c % 64 }

  function B1(p: Sextet, q: Sextet): Byte { p * 4 + q / 16 }
  function B2(q: Sextet, r: Sextet): Byte { q % 16 * 16 + r / 4 }
  function B3(r: Sextet, s: Sextet): Byte { r % 4 * 64 + s }

  /** Three bytes make four digits; a last byte makes two, a last pair three. */
  function Digits(bs: seq<Byte>): seq<Sextet> {
    if bs == [] then []
    else if |bs| == 1 then [D1(bs[0]), D2(bs[0], 0)]
    else if |bs| == 2 then [D1(bs[0]), D2(bs[0], bs[1]), D3(bs[1], 0)]
    else [D1(bs[0]), D2(bs[0], bs[1]), D3(bs[1], bs[2]), D4(bs[2])] + Digits(bs[3..])
  }

  /** The bytes whole groups of digits stand for; spare low bits of a last group are dropped. */
  function Bytes(ds: seq<Sextet>): seq<Byte> {
    if |ds| < 2 then []
    else if |ds| == 2 then [B1(ds[0], ds[1])]
    else if |ds| == 3 then [B1(ds[0], ds[1]), B2(ds[1], ds[2])]
    else [B1(ds[0], ds[1]), B2(ds[1], ds[2]), B3(ds[2], ds[3])] + Bytes(ds[4..])
  }

  function Chars(ds: seq<Sextet>): string { seq(|ds|, i requires 0 <= i < |ds| => CharOf(ds[i])) }

  function Encode(bs: seq<Byte>): string { Chars(Digits(bs)) }

  predicate InAlphabet(text: string) { forall i :: 0 <= i < |text| ==> DigitOf(text[i]).Some? }

  function DigitsOf(text: string): seq<Sextet>
    requires InAlphabet(text)
  {
    seq(|text|, i requires 0 <= i < |text| => DigitOf(text[i]).value)
  }

  /** Nothing empty, nothing outside the alphabet, and no lone last digit. */
  function Decode(text: string): Option<seq<Byte>> {
    if text == "" || !InAlphabet(text) || |text| % 4 == 1 then None else Some(Bytes(DigitsOf(text)))
  }

  // ---- what the encoding says --------------------------------------------

  /** The alphabet of table 2 of RFC 4648: three runs and two more characters. */
  lemma AlphabetInOrder(d: Sextet)
    ensures CharOf(0) == 'A' && CharOf(25) == 'Z' && CharOf(26) == 'a' && CharOf(51) == 'z'
    ensures CharOf(52) == '0' && CharOf(61) == '9' && CharOf(62) == '-' && CharOf(63) == '_'
    ensures d !in {25, 51, 61, 62, 63} ==> CharOf(d + 1) as int == CharOf(d) as int + 1
  {
  }

  /** The value at a place, zero past the end. */
  function Padded(xs: seq<nat>, i: nat): nat { if i < |xs| then xs[i] else 0 }

  function ByteBits(bs: seq<Byte>, i: nat): nat {
    Padded(bs, 3 * i) * 65536 + Padded(bs, 3 * i + 1) * 256 + Padded(bs, 3 * i + 2)
  }

  function DigitBits(ds: seq<Sextet>, i: nat): nat {
    Padded(ds, 4 * i) * 262144 + Padded(ds, 4 * i + 1) * 4096 + Padded(ds, 4 * i + 2) * 64 + Padded(ds, 4 * i + 3)
  }

  lemma {:induction false} DigitCount(bs: seq<Byte>)
    ensures |Digits(bs)| == (4 * |bs| + 2) / 3
  {
    if |bs| >= 3 { DigitCount(bs[3..]); }
  }

  lemma FirstBits(bs: seq<Byte>)
    requires bs != []
    ensures ByteBits(bs, 0) == DigitBits(Digits(bs), 0)
  {
    if |bs| == 1 { GroupBits(bs[0], 0, 0); }
    else if |bs| == 2 { GroupBits(bs[0], bs[1], 0); }
    else { GroupBits(bs[0], bs[1], bs[2]); }
  }

  lemma PaddedAfter(group: seq<nat>, rest: seq<nat>, i: nat)
    ensures Padded(group + rest, |group| + i) == Padded(rest, i)
  {
  }

  lemma LaterBytes(group: seq<Byte>, rest: seq<Byte>, i: nat)
    requires |group| == 3
    ensures ByteBits(group + rest, i + 1) == ByteBits(rest, i)
  {
    PaddedAfter(group, rest, 3 * i);
    PaddedAfter(group, rest, 3 * i + 1);
    PaddedAfter(group, rest, 3 * i + 2);
  }

  lemma LaterDigits(group: seq<Sextet>, rest: seq<Sextet>, i: nat)
    requires |group| == 4
    ensures DigitBits(group + rest, i + 1) == DigitBits(rest, i)
  {
    PaddedAfter(group, rest, 4 * i);
    PaddedAfter(group, rest, 4 * i + 1);
    PaddedAfter(group, rest, 4 * i + 2);
    PaddedAfter(group, rest, 4 * i + 3);
  }

  lemma LaterBits(group: seq<Byte>, rest: seq<Byte>, i: nat)
    requires |group| == 3
    ensures ByteBits(group + rest, i + 1) == ByteBits(rest, i)
    ensures DigitBits(Digits(group + rest), i + 1) == DigitBits(Digits(rest), i)
  {
    DigitsOfGroup(group, rest);
    LaterBytes(group, rest, i);
    LaterDigits([D1(group[0]), D2(group[0], group[1]), D3(group[1], group[2]), D4(group[2])], Digits(rest), i);
  }

  /** Every three bytes and the four digits they make are the same 24 bits, the missing ones zero. */
  lemma {:induction false} SameBits(bs: seq<Byte>, i: nat)
    requires 3 * i < |bs|
    ensures ByteBits(bs, i) == DigitBits(Digits(bs), i)
  {
    if i == 0 {
      FirstBits(bs);
    } else {
      SameBits(bs[3..], i - 1);
      LaterBits(bs[..3], bs[3..], i - 1);
      assert bs[..3] + bs[3..] == bs;
    }
  }

  lemma GroupBits(a: Byte, b: Byte, c: Byte)
    ensures a * 65536 + b * 256 + c == D1(a) * 262144 + D2(a, b) * 4096 + D3(b, c) * 64 + D4(c)
  {
  }

  // ---- round trips -------------------------------------------------------

  lemma GroupOfBytes(a: Byte, b: Byte, c: Byte)
    ensures B1(D1(a), D2(a, b)) == a && B2(D2(a, b), D3(b, c)) == b && B3(D3(b, c), D4(c)) == c
  {
  }

  lemma GroupOfDigits(p: Sextet, q: Sextet, r: Sextet, s: Sextet)
    ensures D1(B1(p, q)) == p && D2(B1(p, q), B2(q, r)) == q && D3(B2(q, r), B3(r, s)) == r && D4(B3(r, s)) == s
    ensures D2(B1(p, q), 0) == q <==> q % 16 == 0
    ensures D3(B2(q, r), 0) == r <==> r % 4 == 0
  {
  }

  lemma BytesOfGroup(g: seq<Sextet>, rest: seq<Sextet>)
    requires |g| == 4
    ensures Bytes(g + rest) == [B1(g[0], g[1]), B2(g[1], g[2]), B3(g[2], g[3])] + Bytes(rest)
  {
    assert (g + rest)[4..] == rest;
  }

  lemma DigitsOfGroup(g: seq<Byte>, rest: seq<Byte>)
    requires |g| == 3
    ensures Digits(g + rest) == [D1(g[0]), D2(g[0], g[1]), D3(g[1], g[2]), D4(g[2])] + Digits(rest)
  {
    assert (g + rest)[3..] == rest;
  }

  lemma OneByte(a: Byte)
    ensures Digits([a]) == [D1(a), D2(a, 0)] && Bytes([D1(a), D2(a, 0)]) == [B1(D1(a), D2(a, 0))]
  {
  }

  lemma TwoBytes(a: Byte, b: Byte)
    ensures Digits([a, b]) == [D1(a), D2(a, b), D3(b, 0)]
    ensures Bytes([D1(a), D2(a, b), D3(b, 0)]) == [B1(D1(a), D2(a, b)), B2(D2(a, b), D3(b, 0))]
  {
  }

  lemma OneByteBack(a: Byte)
    ensures Bytes(Digits([a])) == [a] && |Digits([a])| == 2
  {
    OneByte(a);
    GroupOfBytes(a, 0, 0);
  }

  lemma TwoBytesBack(a: Byte, b: Byte)
    ensures Bytes(Digits([a, b])) == [a, b] && |Digits([a, b])| == 3
  {
    TwoBytes(a, b);
    GroupOfBytes(a, b, 0);
  }

  lemma {:induction false} BytesOfDigits(bs: seq<Byte>)
    ensures Bytes(Digits(bs)) == bs
    ensures |Digits(bs)| % 4 != 1 && (Digits(bs) == [] <==> bs == [])
  {
    if |bs| == 1 {
      assert bs == [bs[0]];
      OneByteBack(bs[0]);
    } else if |bs| == 2 {
      assert bs == [bs[0], bs[1]];
      TwoBytesBack(bs[0], bs[1]);
    } else if |bs| >= 3 {
      var g, rest := bs[..3], bs[3..];
      assert bs == g + rest;
      BytesOfDigits(rest);
      DigitsOfGroup(g, rest);
      GroupOfBytes(g[0], g[1], g[2]);
      BytesOfGroup([D1(g[0]), D2(g[0], g[1]), D3(g[1], g[2]), D4(g[2])], Digits(rest));
    }
  }

  /** Decoding gives back every byte string but the empty one, whose encoding it refuses. */
  lemma DecodeEncodeIff(bs: seq<Byte>)
    ensures Decode(Encode(bs)) == Some(bs) <==> bs != []
    ensures bs == [] ==> Decode(Encode(bs)) == None
  {
    BytesOfDigits(bs);
    var text := Encode(bs);
    forall i | 0 <= i < |text| ensures DigitOf(text[i]) == Some(Digits(bs)[i]) {
      DigitRoundTrip(Digits(bs)[i]);
    }
    assert DigitsOf(text) == Digits(bs);
  }

  lemma EncodeHasNoDot(bs: seq<Byte>)
    ensures '.' !in Encode(bs)
  {
    forall i | 0 <= i < |Encode(bs)| ensures Encode(bs)[i] != '.' { DigitRoundTrip(Digits(bs)[i]); }
  }

  /** The bits of a last partial group that no byte takes are zero. */
  predicate Canonical(ds: seq<Sextet>) {
    && (|ds| % 4 == 2 ==> ds[|ds| - 1] % 16 == 0)
    && (|ds| % 4 == 3 ==> ds[|ds| - 1] % 4 == 0)
  }

  lemma TwoDigits(p: Sextet, q: Sextet)
    ensures Digits(Bytes([p, q])) == [p, q] <==> q % 16 == 0
  {
    OneByte(B1(p, q));
    GroupOfDigits(p, q, 0, 0);
    assert Digits(Bytes([p, q])) == [p, D2(B1(p, q), 0)];
  }

  lemma ThreeDigits(p: Sextet, q: Sextet, r: Sextet)
    ensures Digits(Bytes([p, q, r])) == [p, q, r] <==> r % 4 == 0
  {
    TwoBytes(B1(p, q), B2(q, r));
    GroupOfDigits(p, q, r, 0);
    assert Digits(Bytes([p, q, r])) == [p, q, D3(B2(q, r), 0)];
  }

  lemma DigitsOfShort(ds: seq<Sextet>)
    requires |ds| < 4 && |ds| != 1
    ensures Digits(Bytes(ds)) == ds <==> Canonical(ds)
  {
    if |ds| == 2 {
      assert ds == [ds[0], ds[1]];
      TwoDigits(ds[0], ds[1]);
    } else if |ds| == 3 {
      assert ds == [ds[0], ds[1], ds[2]];
      ThreeDigits(ds[0], ds[1], ds[2]);
    }
  }

  /** A whole group comes back as it was, whatever follows it. */
  lemma DigitsOfBytesGroup(g: seq<Sextet>, rest: seq<Sextet>)
    requires |g| == 4
    ensures Digits(Bytes(g + rest)) == g + Digits(Bytes(rest))
  {
    var p, q, r, s := g[0], g[1], g[2], g[3];
    BytesOfGroup(g, rest);
    DigitsOfGroup([B1(p, q), B2(q, r), B3(r, s)], Bytes(rest));
    BackToGroup(p, q, r, s);
    assert g == [p, q, r, s];
  }

  lemma BackToGroup(p: Sextet, q: Sextet, r: Sextet, s: Sextet)
    ensures [D1(B1(p, q)), D2(B1(p, q), B2(q, r)), D3(B2(q, r), B3(r, s)), D4(B3(r, s))] == [p, q, r, s]
  {
    GroupOfDigits(p, q, r, s);
  }

  lemma CanonicalTail(g: seq<Sextet>, rest: seq<Sextet>)
    requires |g| == 4
    ensures Canonical(g + rest) <==> Canonical(rest)
  {
    assert rest != [] ==> (g + rest)[|g + rest| - 1] == rest[|rest| - 1];
  }

  lemma {:induction false} DigitsOfBytes(ds: seq<Sextet>)
    requires |ds| % 4 != 1
    ensures Digits(Bytes(ds)) == ds <==> Canonical(ds)
  {
    if |ds| < 4 {
      DigitsOfShort(ds);
    } else {
      var g, rest := ds[..4], ds[4..];
      assert ds == g + rest;
      DigitsOfBytes(rest);
      DigitsOfBytesGroup(g, rest);
      CanonicalTail(g, rest);
      SameTail(g, Digits(Bytes(rest)), rest);
    }
  }

  lemma SameTail(g: seq<Sextet>, a: seq<Sextet>, b: seq<Sextet>)
    ensures g + a == g + b <==> a == b
  {
    assert (g + a)[|g|..] == a && (g + b)[|g|..] == b;
  }

  /** Of the texts decoding accepts, exactly the canonical ones are encodings. */
  lemma EncodeDecodeIff(text: string)
    requires Decode(text).Some?
    ensures Encode(Decode(text).value) == text <==> Canonical(DigitsOf(text))
  {
    var ds := DigitsOf(text);
    DigitsOfBytes(ds);
    assert Chars(ds) == text by {
      forall i | 0 <= i < |text| ensures Chars(ds)[i] == text[i] { CharRoundTrip(text[i]); }
    }
    if Encode(Decode(text).value) == text { SameChars(Digits(Bytes(ds)), ds); }
  }

  lemma SameChars(a: seq<Sextet>, b: seq<Sextet>)
    requires Chars(a) == Chars(b)
    ensures a == b
  {
    assert |Chars(a)| == |Chars(b)|;
    forall i | 0 <= i < |a| ensures a[i] == b[i] {
      assert Chars(a)[i] == Chars(b)[i];
      DigitRoundTrip(a[i]);
      DigitRoundTrip(b[i]);
    }
  }

  // ---- dots --------------------------------------------------------------

  /** `text.split(".")`. */
  function Split(text: string): (parts: seq<string>)
    ensures parts != []
  {
    if text == "" then [""]
    else
      var rest := Split(text[1..]);
      if text[0] == '.' then [""] + rest else [[text[0]] + rest[0]] + rest[1..]
  }

  lemma {:induction false} SplitWhole(text: string)
    requires '.' !in text
    ensures Split(text) == [text]
  {
    if text != "" {
      SplitWhole(text[1..]);
      assert text == [text[0]] + text[1..];
    }
  }

  lemma {:induction false} SplitJoin(a: string, b: string)
    requires '.' !in a
    ensures Split(a + "." + b) == [a] + Split(b)
  {
    if a == "" {
      assert a + "." + b == "." + b;
      assert ("." + b)[1..] == b;
    } else {
      SplitJoin(a[1..], b);
      assert (a + "." + b)[1..] == a[1..] + "." + b;
      assert a == [a[0]] + a[1..];
    }
  }

  function Dots(text: string): nat {
    if text == "" then 0 else (if text[0] == '.' then 1 else 0) + Dots(text[1..])
  }

  lemma {:induction false} SplitCount(text: string)
    ensures |Split(text)| == Dots(text) + 1
  {
    if text != "" { SplitCount(text[1..]); }
  }

  lemma {:induction false} DotsConcat(a: string, b: string)
    ensures Dots(a + b) == Dots(a) + Dots(b)
  {
    if a == "" {
      assert a + b == b;
    } else {
      DotsConcat(a[1..], b);
      assert (a + b)[1..] == a[1..] + b;
    }
  }

  lemma {:induction false} NoDotsIff(text: string)
    ensures Dots(text) == 0 <==> '.' !in text
  {
    if text != "" {
      NoDotsIff(text[1..]);
      assert text == [text[0]] + text[1..];
    }
  }
}
