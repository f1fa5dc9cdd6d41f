/** UTF-8 as RFC 3629 defines it, over Dafny strings (sequences of Unicode
    scalar values, which is what a Python `str` holds once lone surrogates are
    set aside). The back end truncates passwords to bcrypt's 72-byte limit by
    encoding, cutting the bytes and decoding again; this module gives the
    encoder, a strict decoder, a lenient decoder that skips undecodable bytes,
    and the facts the truncation relies on. */
module Utf8 {
  import opened Util

  type byte = x: int | 0 <= x < 256

  /** Number of bytes RFC 3629 section 3 uses for a scalar value. */
  function Width(c: char): (w: nat)
    ensures 1 <= w <= 4
  {
    var v := c as int;
    if v < 0x80 then 1 else if v < 0x800 then 2 else if v < 0x10000 then 3 else 4
  }

  function EncodeChar(c: char): (r: seq<byte>)
    ensures |r| == Width(c)
  {
    var v := c as int;
    if v < 0x80 then [v]
    else if v < 0x800 then [0xC0 + v / 64, 0x80 + v % 64]
    else if v < 0x10000 then [0xE0 + v / 4096, 0x80 + (v / 64) % 64, 0x80 + v % 64]
    else [0xF0 + v / 262144, 0x80 + (v / 4096) % 64, 0x80 + (v / 64) % 64, 0x80 + v % 64]
  }

  /** `s.encode('utf-8')`. */
  function Encode(s: string): (r: seq<byte>)
    ensures |r| >= |s|
  {
    if s == [] then [] else EncodeChar(s[0]) + Encode(s[1..])
  }

  lemma {:induction false} EncodeAppend(a: string, b: string)
    ensures Encode(a + b) == Encode(a) + Encode(b)
  {
    if a == [] {
      assert a + b == b;
    } else {
      assert (a + b)[1..] == a[1..] + b;
      EncodeAppend(a[1..], b);
    }
  }

  // ---------------------------------------------------------------------------
  // Decoding

  predicate IsCont(x: byte) { 0x80 <= x < 0xC0 }

  /** The sequence length announced by a lead byte, 0 for a byte that cannot
      start a well-formed sequence (RFC 3629 section 4). */
  function LeadWidth(x: byte): nat {
    if x < 0x80 then 1
    else if 0xC2 <= x < 0xE0 then 2
    else if 0xE0 <= x < 0xF0 then 3
    else if 0xF0 <= x < 0xF5 then 4
    else 0
  }

  predicate IsScalar(v: int) { 0 <= v < 0xD800 || 0xE000 <= v < 0x110000 }

  /** The value and length of a well-formed sequence at the front of `b`, if any. */
  function DecodeFirst(b: seq<byte>): (r: Option<(char, nat)>)
    ensures r.Some? ==> 1 <= r.value.1 <= |b|
  {
    if b == [] then None
    else
      var w := LeadWidth(b[0]);
      if w == 0 || |b| < w then None
      else if w == 1 then Some((b[0] as char, 1))
      else if exists i :: 1 <= i < w && !IsCont(b[i]) then None
      else
        var v := Value(b[..w]);
        if (w == 3 && v < 0x800) || (w == 4 && v < 0x10000) || !IsScalar(v) then None
        else Some((v as char, w))
  }

  /** The scalar value a lead byte and its continuation bytes spell out. */
  function Value(seqn: seq<byte>): int
    requires 2 <= |seqn| <= 4
  {
    var lead := seqn[0] as int;
    var c1 := seqn[1] as int - 0x80;
    if |seqn| == 2 then (lead - 0xC0) * 64 + c1
    else
      var c2 := seqn[2] as int - 0x80;
      if |seqn| == 3 then (lead - 0xE0) * 4096 + c1 * 64 + c2
      else (lead - 0xF0) * 262144 + c1 * 4096 + c2 * 64 + (seqn[3] as int - 0x80)
  }

  /** `b.decode('utf-8')`: `None` is the UnicodeDecodeError. */
  function DecodeStrict(b: seq<byte>): Option<string>
    decreases |b|
  {
    if b == [] then Some("")
    else match DecodeFirst(b)
      case None => None
      case Some((c, w)) =>
        match DecodeStrict(b[w..])
        case None => None
        case Some(rest) => Some([c] + rest)
  }

  /** `b.decode('utf-8', errors='ignore')`: undecodable bytes are skipped one at a time. */
  function DecodeIgnore(b: seq<byte>): string
    decreases |b|
  {
    if b == [] then ""
    else match DecodeFirst(b)
      case None => DecodeIgnore(b[1..])
      case Some((c, w)) => [c] + DecodeIgnore(b[w..])
  }

  /** Where the strict decoder succeeds, the lenient one agrees with it. */
  lemma {:induction false} StrictAgreesWithIgnore(b: seq<byte>)
    requires DecodeStrict(b).Some?
    ensures DecodeIgnore(b) == DecodeStrict(b).value
    decreases |b|
  {
    if b != [] {
      var (c, w) := DecodeFirst(b).value;
      StrictAgreesWithIgnore(b[w..]);
    }
  }

  lemma Div64(v: int)
    requires v >= 0
    ensures (v / 64) / 64 == v / 4096 && ((v / 64) / 64) / 64 == v / 262144
  {
  }

  /** The decoder reads back the encoding of one scalar value. */
  lemma DecodeEncodedChar(c: char, rest: seq<byte>)
    ensures DecodeFirst(EncodeChar(c) + rest) == Some((c, Width(c)))
  {
    var v := c as int;
    var e := EncodeChar(c);
    var b := e + rest;
    assert b[..|e|] == e;
    Div64(v);
    if v < 0x80 {
    } else if v < 0x800 {
      assert Value(e) == v;
    } else if v < 0x10000 {
      assert (v / 64) == (v / 4096) * 64 + (v / 64) % 64;
      assert Value(e) == v;
    } else {
      assert (v / 64) == (v / 4096) * 64 + (v / 64) % 64;
      assert (v / 4096) == (v / 262144) * 64 + (v / 4096) % 64;
      assert Value(e) == v;
    }
  }

  /** RFC 3629 round trip: decoding an encoding gives the string back. */
  lemma {:induction false} RoundTrip(s: string)
    ensures DecodeStrict(Encode(s)) == Some(s)
  {
    if s != [] {
      var b := Encode(s);
      assert b == EncodeChar(s[0]) + Encode(s[1..]);
      DecodeEncodedChar(s[0], Encode(s[1..]));
      assert b[Width(s[0])..] == Encode(s[1..]);
      RoundTrip(s[1..]);
      assert DecodeStrict(b) == Some([s[0]] + s[1..]);
      assert [s[0]] + s[1..] == s;
    }
  }

  /** A run of continuation bytes decodes to nothing. */
  lemma {:induction false} ContinuationsIgnored(b: seq<byte>)
    requires forall i :: 0 <= i < |b| ==> IsCont(b[i])
    ensures DecodeIgnore(b) == ""
    decreases |b|
  {
    if b != [] {
      ContinuationsIgnored(b[1..]);
    }
  }

  /** A sequence cut short before its last byte decodes to nothing. */
  lemma IncompleteIgnored(c: char, k: nat)
    requires k < Width(c)
    ensures DecodeIgnore(EncodeChar(c)[..k]) == ""
  {
    var p := EncodeChar(c)[..k];
    if k > 0 {
      assert DecodeFirst(p).None?;
      ContinuationsIgnored(p[1..]);
    }
  }

  /** The lenient decoder reads complete characters and drops a trailing incomplete one. */
  lemma {:induction false} IgnoreDropsIncompleteTail(s: string, c: char, k: nat)
    requires k < Width(c)
    ensures DecodeIgnore(Encode(s) + EncodeChar(c)[..k]) == s
  {
    if s == [] {
      assert Encode(s) + EncodeChar(c)[..k] == EncodeChar(c)[..k];
      IncompleteIgnored(c, k);
    } else {
      var tail := Encode(s[1..]) + EncodeChar(c)[..k];
      assert Encode(s) + EncodeChar(c)[..k] == EncodeChar(s[0]) + tail;
      DecodeEncodedChar(s[0], tail);
      assert (EncodeChar(s[0]) + tail)[Width(s[0])..] == tail;
      IgnoreDropsIncompleteTail(s[1..], c, k);
    }
  }

  // ---------------------------------------------------------------------------
  // Byte-budget truncation

  /** The longest character prefix of `s` whose encoding fits in `budget` bytes. */
  function FitPrefix(s: string, budget: nat): (r: string)
    ensures |r| <= |s| && r == s[..|r|]
    ensures |Encode(r)| <= budget
    ensures |r| < |s| ==> |Encode(r)| + Width(s[|r|]) > budget
  {
    if s == [] || Width(s[0]) > budget then []
    else
      var t := FitPrefix(s[1..], budget - Width(s[0]));
      assert Encode([s[0]] + t) == EncodeChar(s[0]) + Encode(t) by {
        assert ([s[0]] + t)[1..] == t;
      }
      [s[0]] + t
  }

  lemma {:induction false} FitPrefixWhole(s: string, budget: nat)
    ensures |Encode(s)| <= budget ==> FitPrefix(s, budget) == s
  {
    if s != [] && |Encode(s)| <= budget {
      assert |Encode(s)| == Width(s[0]) + |Encode(s[1..])|;
      FitPrefixWhole(s[1..], budget - Width(s[0]));
      FitCons(s, budget, s[1..]);
      assert [s[0]] + s[1..] == s;
    }
  }

  /** Cutting the encoding at `budget` bytes leaves the fitting prefix followed
      by a proper prefix of the next character's encoding. */
  lemma {:induction false} CutEncoding(s: string, budget: nat)
    requires |Encode(s)| > budget
    ensures var r := FitPrefix(s, budget);
      |r| < |s| && budget - |Encode(r)| < Width(s[|r|]) &&
      Encode(s)[..budget] == Encode(r) + EncodeChar(s[|r|])[..budget - |Encode(r)|]
  {
    var w := Width(s[0]);
    if w > budget {
      CutInHead(s, budget);
    } else {
      var rest := Encode(s[1..]);
      var t := FitPrefix(s[1..], budget - w);
      CutEncoding(s[1..], budget - w);
      FitCons(s, budget, t);
      var next := s[1..][|t|];
      var k := budget - w - |Encode(t)|;
      var r := FitPrefix(s, budget);
      assert |r| == |t| + 1 && s[|r|] == next;
      assert budget - |Encode(r)| == k;
      CutAfterHead(EncodeChar(s[0]), rest, budget, Encode(t), EncodeChar(next)[..k]);
    }
  }

  /** The cut falls inside the first character. */
  lemma CutInHead(s: string, budget: nat)
    requires s != [] && Width(s[0]) > budget
    ensures FitPrefix(s, budget) == []
    ensures Encode(s)[..budget] == EncodeChar(s[0])[..budget]
  {
    assert Encode(s) == EncodeChar(s[0]) + Encode(s[1..]);
  }

  /** The fitting prefix of a string whose first character fits. */
  lemma FitCons(s: string, budget: nat, t: string)
    requires s != [] && Width(s[0]) <= budget && t == FitPrefix(s[1..], budget - Width(s[0]))
    ensures FitPrefix(s, budget) == [s[0]] + t
    ensures Encode(FitPrefix(s, budget)) == EncodeChar(s[0]) + Encode(t)
  {
    assert ([s[0]] + t)[1..] == t;
  }

  lemma CutAfterHead(head: seq<byte>, rest: seq<byte>, n: nat, a: seq<byte>, b: seq<byte>)
    requires |head| <= n <= |head| + |rest|
    requires rest[..n - |head|] == a + b
    ensures (head + rest)[..n] == (head + a) + b
  {
    assert (head + rest)[..n] == head + rest[..n - |head|];
  }

  /** `encode('utf-8')[:n]`, the byte cut every truncation here starts from. */
  function CutBytes(s: string, n: nat): (r: seq<byte>)
    ensures |r| <= n && |r| <= |Encode(s)|
    ensures r == Encode(s)[..|r|]
    ensures |Encode(s)| <= n ==> r == Encode(s)
  {
    var b := Encode(s);
    if |b| > n then b[..n] else b
  }

  /** Decoding the cut bytes, strictly if possible and otherwise ignoring errors,
      yields the longest character prefix that fits. */
  lemma DecodedCut(s: string, n: nat)
    ensures (match DecodeStrict(CutBytes(s, n)) case Some(t) => t case None => DecodeIgnore(CutBytes(s, n)))
            == FitPrefix(s, n)
  {
    var cut := CutBytes(s, n);
    var r := FitPrefix(s, n);
    if |Encode(s)| > n {
      CutEncoding(s, n);
      IgnoreDropsIncompleteTail(r, s[|r|], n - |Encode(r)|);
      EitherDecoding(cut, r);
    } else {
      FitPrefixWhole(s, n);
      RoundTrip(s);
      StrictAgreesWithIgnore(cut);
      EitherDecoding(cut, r);
    }
  }

  /** Bytes the lenient decoder reads as `r` decode to `r` either way. */
  lemma EitherDecoding(cut: seq<byte>, r: string)
    requires DecodeIgnore(cut) == r
    ensures (match DecodeStrict(cut) case Some(t) => t case None => DecodeIgnore(cut)) == r
  {
    if DecodeStrict(cut).Some? {
      StrictAgreesWithIgnore(cut);
    }
  }
}
