/**
 UTF-8 (section 3 of RFC 3629) as `_clip_utf8` uses it: strict encoding, and
 decoding that ignores what is not a character (`code_index/retrieval.py`).
 */
module Utf8 {
  import opened Options

  type Byte = x: int | 0 <= x < 256

  function CodeWidth(c: int): nat {
    if c < 0x80 then 1 else if c < 0x800 then 2 else if c < 0x10000 then 3 else 4
  }

  function EncodeCode(c: int): (bs: seq<Byte>)
    requires 0 <= c < 0x110000
    ensures |bs| == CodeWidth(c)
  {
    if c < 0x80 then [c]
    else if c < 0x800 then [0xC0 + c / 64, 0x80 + c % 64]
    else if c < 0x10000 then [0xE0 + c / 64 / 64, 0x80 + c / 64 % 64, 0x80 + c % 64]
    else [0xF0 + c / 64 / 64 / 64, 0x80 + c / 64 / 64 % 64, 0x80 + c / 64 % 64, 0x80 + c % 64]
  }

  /** A Dafny `char` is a Unicode scalar value, so every text has an encoding. */
  function EncodeChar(c: char): seq<Byte> {
    EncodeCode(c as int)
  }

  function Encode(s: string): seq<Byte> {
    if s == [] then [] else EncodeChar(s[0]) + Encode(s[1..])
  }

  function Width(c: char): nat {
    CodeWidth(c as int)
  }

  /** The number of bytes of the encoding. */
  function Size(s: string): nat {
    if s == [] then 0 else Width(s[0]) + Size(s[1..])
  }

  lemma {:induction false} SizeOfEncoding(s: string)
    ensures |Encode(s)| == Size(s)
  {
    if s != [] {
      SizeOfEncoding(s[1..]);
    }
  }

  /* ---- decoding ---- */

  predicate IsContinuation(b: Byte) {
    0x80 <= b < 0xC0
  }

  /** How long a sequence the first byte announces; 0 if no sequence starts with it. */
  function Announced(b: Byte): nat {
    if b < 0x80 then 1
    else if b < 0xC0 then 0
    else if b < 0xE0 then 2
    else if b < 0xF0 then 3
    else if b < 0xF8 then 4
    else 0
  }

  function Low(b: int, modulus: int): int
    requires modulus > 0
  {
    b % modulus
  }

  /** The bits of the sequence, whatever they stand for. */
  function Assembled(bs: seq<Byte>): int
    requires bs != [] && Announced(bs[0]) == |bs|
  {
    if |bs| == 1 then bs[0]
    else if |bs| == 2 then Low(bs[0], 32) * 64 + Low(bs[1], 64)
    else if |bs| == 3 then Low(bs[0], 16) * 4096 + Low(bs[1], 64) * 64 + Low(bs[2], 64)
    else Low(bs[0], 8) * 262144 + Low(bs[1], 64) * 4096 + Low(bs[2], 64) * 64 + Low(bs[3], 64)
  }

  /** The character the bytes begin with: well-formed, in shortest form and no surrogate. */
  function First(bs: seq<Byte>): (r: Option<char>)
    ensures r.Some? ==> EncodeChar(r.value) <= bs
  {
    if bs == [] then None
    else
      var n := Announced(bs[0]);
      if n == 0 || |bs| < n then None
      else
        var c := Assembled(bs[..n]);
        if (0 <= c < 0xD800 || 0xE000 <= c < 0x110000) && EncodeCode(c) == bs[..n] then Some(c as char) else None
  }

  /** Decoding that skips a byte where no character begins. */
  function DecodeIgnore(bs: seq<Byte>): string
    decreases |bs|
  {
    if bs == [] then []
    else match First(bs)
         case Some(c) => [c] + DecodeIgnore(bs[Width(c)..])
         case None => DecodeIgnore(bs[1..])
  }

  lemma AnnouncedWidth(c: char)
    ensures Announced(EncodeChar(c)[0]) == Width(c)
    ensures forall i | 1 <= i < Width(c) :: IsContinuation(EncodeChar(c)[i])
  {
  }

  lemma LowBits(high: int, x: int, modulus: int)
    requires 0 <= x < modulus && (modulus == 8 || modulus == 16 || modulus == 32 || modulus == 64)
    requires high == 0x80 || high == 0xC0 || high == 0xE0 || high == 0xF0
    requires high == 0x80 ==> modulus == 64
    requires high == 0xC0 ==> modulus == 32
    requires high == 0xE0 ==> modulus == 16
    requires high == 0xF0 ==> modulus == 8
    ensures Low(high + x, modulus) == x
  {
  }

  lemma AssembledCode(c: int)
    requires 0 <= c < 0x110000
    ensures Announced(EncodeCode(c)[0]) == |EncodeCode(c)|
    ensures Assembled(EncodeCode(c)) == c
  {
    LowBits(0x80, c % 64, 64);
    LowBits(0x80, c / 64 % 64, 64);
    LowBits(0x80, c / 64 / 64 % 64, 64);
    if c < 0x80 {
    } else if c < 0x800 {
      LowBits(0xC0, c / 64, 32);
    } else if c < 0x10000 {
      LowBits(0xE0, c / 64 / 64, 16);
    } else {
      LowBits(0xF0, c / 64 / 64 / 64, 8);
    }
  }

  lemma FirstOfChar(c: char, rest: seq<Byte>)
    ensures First(EncodeChar(c) + rest) == Some(c)
  {
    AnnouncedWidth(c);
    AssembledCode(c as int);
    assert (EncodeChar(c) + rest)[..Width(c)] == EncodeChar(c);
  }

  /** No piece of an encoded character short of the whole decodes to anything. */
  lemma {:induction false} PiecesAreIgnored(c: char, lo: nat, hi: nat)
    requires lo <= hi < Width(c)
    ensures DecodeIgnore(EncodeChar(c)[lo..hi]) == []
    decreases hi - lo
  {
    AnnouncedWidth(c);
    var piece := EncodeChar(c)[lo..hi];
    if lo < hi {
      assert First(piece).None?;
      assert piece[1..] == EncodeChar(c)[lo + 1..hi];
      PiecesAreIgnored(c, lo + 1, hi);
    }
  }

  /* ---- prefixes ---- */

  /** How many whole characters of `s` fit into `n` bytes. */
  function Fit(s: string, n: int): (k: nat)
    ensures k <= |s|
  {
    if s == [] || Width(s[0]) > n then 0 else 1 + Fit(s[1..], n - Width(s[0]))
  }

  /** `Fit` is the longest prefix that fits. */
  lemma {:induction false} FitIsLongest(s: string, n: int, k: nat)
    requires k <= |s| && n >= 0
    ensures Size(s[..k]) <= n <==> k <= Fit(s, n)
  {
    if k > 0 {
      assert s[..k][1..] == s[1..][..k - 1];
      assert s[..k][0] == s[0];
      if Width(s[0]) <= n {
        FitIsLongest(s[1..], n - Width(s[0]), k - 1);
      }
    }
  }

  /** Cutting the bytes anywhere and decoding what is left gives exactly the whole characters that fit. */
  lemma {:induction false} DecodedCut(s: string, n: nat)
    requires n <= |Encode(s)|
    ensures DecodeIgnore(Encode(s)[..n]) == s[..Fit(s, n)]
  {
    if s != [] {
      var c, rest := s[0], Encode(s[1..]);
      var w := Width(c);
      if w <= n {
        assert Encode(s)[..n] == EncodeChar(c) + rest[..n - w];
        FirstOfChar(c, rest[..n - w]);
        DecodedCut(s[1..], n - w);
        assert (EncodeChar(c) + rest[..n - w])[w..] == rest[..n - w];
        assert s[..Fit(s, n)] == [c] + s[1..][..Fit(s[1..], n - w)];
      } else {
        assert Encode(s)[..n] == EncodeChar(c)[0..n];
        PiecesAreIgnored(c, 0, n);
      }
    }
  }

  lemma WholeFitsIff(s: string, n: nat)
    ensures Fit(s, n) == |s| <==> Size(s) <= n
  {
    FitIsLongest(s, n, |s|);
    assert s[..|s|] == s;
  }

  /** Decoding undoes encoding. */
  lemma {:induction false} RoundTrip(s: string)
    ensures DecodeIgnore(Encode(s)) == s
  {
    SizeOfEncoding(s);
    DecodedCut(s, Size(s));
    WholeFitsIff(s, Size(s));
    assert Encode(s)[..Size(s)] == Encode(s);
  }

  /** `_clip_utf8`: the whole characters that fit, and whether that is less than all. */
  method ClipUtf8(text: string, maxBytes: int) returns (clipped: string, truncated: bool)
    ensures clipped == text[..Fit(text, maxBytes)]
    ensures truncated <==> clipped != text
  {
    var raw := Encode(text);
    SizeOfEncoding(text);
    if |raw| <= maxBytes {
      WholeFitsIff(text, maxBytes);
      return text, false;
    }
    if maxBytes <= 0 {
      return "", raw != [];
    }
    WholeFitsIff(text, maxBytes);
    DecodedCut(text, maxBytes);
    return DecodeIgnore(raw[..maxBytes]), true;
  }
}
