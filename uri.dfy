/** `encodeURIComponent` and `decodeURIComponent` (ECMAScript 2023 sections
    19.2.6.5 and 19.2.6.2): every character outside the unreserved set of
    RFC 3986 section 2.3 (plus `!~*'()`) becomes the percent-escapes of
    section 2.1 of its UTF-8 bytes, and decoding reads the escapes back,
    rejecting a malformed escape or byte sequence with a `URIError`
    (`None` here). The company card links to `/company/<encoded name>` and
    the company page decodes that segment. */
module Uri {
  import opened Util
  import Utf8

  type byte = Utf8.byte

  /** Characters `encodeURIComponent` leaves as they are. */
  predicate Unreserved(c: char) {
    ('A' <= c <= 'Z') || ('a' <= c <= 'z') || ('0' <= c <= '9') || c in "-_.!~*'()"
  }

  /** The encoder writes upper-case hexadecimal digits. */
  function HexDigit(n: nat): (c: char)
    requires n < 16
  {
    if n < 10 then ('0' as int + n) as char else ('A' as int + n - 10) as char
  }

  /** The decoder accepts either case. */
  function HexValue(c: char): (r: Option<nat>)
    ensures r.Some? ==> r.value < 16
  {
    if '0' <= c <= '9' then Some(c as int - '0' as int)
    else if 'A' <= c <= 'F' then Some(c as int - 'A' as int + 10)
    else if 'a' <= c <= 'f' then Some(c as int - 'a' as int + 10)
    else None
  }

  function Escape(b: byte): string {
    ['%', HexDigit(b / 16), HexDigit(b % 16)]
  }

  function EscapeAll(bs: seq<byte>): string {
    if bs == [] then "" else Escape(bs[0]) + EscapeAll(bs[1..])
  }

  function EncodeChar(c: char): string {
    if Unreserved(c) then [c] else EscapeAll(Utf8.EncodeChar(c))
  }

  /** `encodeURIComponent(s)`. */
  function EncodeComponent(s: string): string {
    if s == [] then "" else EncodeChar(s[0]) + EncodeComponent(s[1..])
  }

  /** The decoder's view of the text: a literal character or one `%XY` byte. */
  datatype Piece = Lit(c: char) | Esc(b: byte)

  /** `None` for a `%` not followed by two hexadecimal digits. */
  function Parse(s: string): Option<seq<Piece>>
    decreases |s|
  {
    if s == [] then Some([])
    else if s[0] == '%' then
      if |s| < 3 || HexValue(s[1]).None? || HexValue(s[2]).None? then None
      else match Parse(s[3..])
        case None => None
        case Some(rest) => Some([Esc(HexValue(s[1]).value * 16 + HexValue(s[2]).value)] + rest)
    else match Parse(s[1..])
      case None => None
      case Some(rest) => Some([Lit(s[0])] + rest)
  }

  /** The bytes of the escapes at the front. */
  function LeadingBytes(ps: seq<Piece>): (r: seq<byte>)
    ensures |r| <= |ps|
  {
    if ps == [] || !ps[0].Esc? then [] else [ps[0].b] + LeadingBytes(ps[1..])
  }

  /** An escape starts a UTF-8 sequence that must be completed by the
      escapes after it and must be well formed. */
  function DecodePieces(ps: seq<Piece>): Option<string>
    decreases |ps|
  {
    if ps == [] then Some("")
    else if ps[0].Lit? then
      match DecodePieces(ps[1..])
      case None => None
      case Some(rest) => Some([ps[0].c] + rest)
    else match Utf8.DecodeFirst(LeadingBytes(ps))
      case None => None
      case Some((c, w)) =>
        match DecodePieces(ps[w..])
        case None => None
        case Some(rest) => Some([c] + rest)
  }

  /** `decodeURIComponent(s)`; `None` is the `URIError`. */
  function DecodeComponent(s: string): Option<string> {
    match Parse(s)
    case None => None
    case Some(ps) => DecodePieces(ps)
  }

  // ---------------------------------------------------------------------------
  // The round trip

  function Escs(bs: seq<byte>): (r: seq<Piece>)
    ensures |r| == |bs|
  {
    if bs == [] then [] else [Esc(bs[0])] + Escs(bs[1..])
  }

  function CharPieces(c: char): seq<Piece> {
    if Unreserved(c) then [Lit(c)] else Escs(Utf8.EncodeChar(c))
  }

  /** What the decoder sees in an encoded string. */
  function Pieces(s: string): seq<Piece> {
    if s == [] then [] else CharPieces(s[0]) + Pieces(s[1..])
  }

  lemma HexRoundTrip(n: nat)
    requires n < 16
    ensures HexValue(HexDigit(n)) == Some(n)
  {
  }

  lemma ParseEscape(b: byte, rest: string, tail: seq<Piece>)
    requires Parse(rest) == Some(tail)
    ensures Parse(Escape(b) + rest) == Some([Esc(b)] + tail)
  {
    HexRoundTrip(b / 16);
    HexRoundTrip(b % 16);
    var s := Escape(b) + rest;
    assert s[0] == '%' && s[1] == HexDigit(b / 16) && s[2] == HexDigit(b % 16);
    assert (b / 16) * 16 + b % 16 == b;
    assert s[3..] == rest;
  }

  /** One more escape in front of an escaped run (`c` being `EscapeAll(bs)`, `ps` its pieces). */
  lemma ParseEscapesCons(b: byte, c: string, ps: seq<Piece>, rest: string, tail: seq<Piece>)
    requires Parse(c + rest) == Some(ps + tail)
    ensures Parse((Escape(b) + c) + rest) == Some(([Esc(b)] + ps) + tail)
  {
    ParseEscape(b, c + rest, ps + tail);
    assert (Escape(b) + c) + rest == Escape(b) + (c + rest);
    assert ([Esc(b)] + ps) + tail == [Esc(b)] + (ps + tail);
  }

  lemma {:induction false} ParseEscapes(bs: seq<byte>, rest: string, tail: seq<Piece>)
    requires Parse(rest) == Some(tail)
    ensures Parse(EscapeAll(bs) + rest) == Some(Escs(bs) + tail)
  {
    if bs == [] {
      assert EscapeAll(bs) + rest == rest;
      assert Escs(bs) + tail == tail;
    } else {
      ParseEscapes(bs[1..], rest, tail);
      ParseEscapesCons(bs[0], EscapeAll(bs[1..]), Escs(bs[1..]), rest, tail);
    }
  }

  lemma {:induction false} ParseEncoded(s: string)
    ensures Parse(EncodeComponent(s)) == Some(Pieces(s))
  {
    if s != [] {
      var c := s[0];
      var rest := EncodeComponent(s[1..]);
      ParseEncoded(s[1..]);
      if Unreserved(c) {
        assert EncodeComponent(s) == [c] + rest;
        assert ([c] + rest)[1..] == rest;
      } else {
        ParseEscapes(Utf8.EncodeChar(c), rest, Pieces(s[1..]));
      }
    }
  }

  lemma LeadingCons(b: byte, rest: seq<Piece>)
    ensures LeadingBytes([Esc(b)] + rest) == [b] + LeadingBytes(rest)
  {
    assert ([Esc(b)] + rest)[1..] == rest;
  }

  lemma {:induction false} LeadingEscs(bs: seq<byte>, qs: seq<Piece>)
    ensures LeadingBytes(Escs(bs) + qs) == bs + LeadingBytes(qs)
  {
    if bs == [] {
      assert Escs(bs) + qs == qs;
    } else {
      LeadingEscs(bs[1..], qs);
      LeadingCons(bs[0], Escs(bs[1..]) + qs);
      AppendAssoc([Esc(bs[0])], Escs(bs[1..]), qs);
      AppendAssoc([bs[0]], bs[1..], LeadingBytes(qs));
      assert [bs[0]] + bs[1..] == bs;
    }
  }

  lemma {:induction false} DecodePiecesOf(s: string)
    ensures DecodePieces(Pieces(s)) == Some(s)
  {
    if s != [] {
      var c := s[0];
      var tail := Pieces(s[1..]);
      var ps := Pieces(s);
      DecodePiecesOf(s[1..]);
      if Unreserved(c) {
        assert ps == [Lit(c)] + tail && ps[1..] == tail;
      } else {
        var e := Utf8.EncodeChar(c);
        assert ps == Escs(e) + tail;
        LeadingEscs(e, tail);
        Utf8.DecodeEncodedChar(c, LeadingBytes(tail));
        assert ps[Utf8.Width(c)..] == tail;
      }
      assert [c] + s[1..] == s;
    }
  }

  /** `decodeURIComponent(encodeURIComponent(s)) === s` for every string. */
  lemma RoundTrip(s: string)
    ensures DecodeComponent(EncodeComponent(s)) == Some(s)
  {
    ParseEncoded(s);
    DecodePiecesOf(s);
  }

  /** Names made of unreserved characters only are left as they are. */
  lemma {:induction false} UnreservedUnchanged(s: string)
    requires forall i :: 0 <= i < |s| ==> Unreserved(s[i])
    ensures EncodeComponent(s) == s
  {
    if s != [] {
      UnreservedUnchanged(s[1..]);
      assert [s[0]] + s[1..] == s;
    }
  }

  /** Text without `%` decodes to itself. */
  lemma {:induction false} NoEscapeUnchanged(s: string)
    requires '%' !in s
    ensures DecodeComponent(s) == Some(s)
  {
    if s != [] {
      NoEscapeUnchanged(s[1..]);
      var ps := Parse(s[1..]).value;
      assert Parse(s) == Some([Lit(s[0])] + ps);
      assert ([Lit(s[0])] + ps)[1..] == ps;
      assert [s[0]] + s[1..] == s;
    }
  }

  /** `%41` is read as `A`. */
  lemma EscapedLetter()
    ensures DecodeComponent("%41") == Some("A")
  {
    var e := "%41";
    assert e[0] == '%' && HexValue(e[1]) == Some(4) && HexValue(e[2]) == Some(1);
    assert e[3..] == "";
    assert Parse(e) == Some([Esc(0x41)] + []);
    assert [Esc(0x41)] + [] == [Esc(0x41)];
    assert LeadingBytes([Esc(0x41)]) == [0x41];
    assert Utf8.DecodeFirst([0x41]) == Some(('A', 1));
    assert [Esc(0x41)][1..] == [];
    assert DecodePieces([]) == Some("");
    assert DecodePieces([Esc(0x41)]) == Some(['A'] + "");
    assert ['A'] + "" == "A";
    assert DecodeComponent(e) == DecodePieces([Esc(0x41)]);
  }

  /** A bare `%` and a lone multi-byte lead are URIErrors. */
  lemma Malformed()
    ensures DecodeComponent("100%") == None
    ensures DecodeComponent("%E9") == None
  {
    assert Parse("%") == None;
    assert Parse("0%") == None;
    assert Parse("00%") == None;
    assert "100%"[1..] == "00%";
    assert "00%"[1..] == "0%";
    assert "0%"[1..] == "%";
    assert Parse("100%") == None;
    var e := "%E9";
    assert e[0] == '%' && HexValue(e[1]) == Some(14) && HexValue(e[2]) == Some(9);
    assert e[3..] == "";
    assert Parse(e[3..]) == Some([]);
    assert Parse(e) == Some([Esc(0xE9)] + []);
    assert [Esc(0xE9)] + [] == [Esc(0xE9)];
    assert LeadingBytes([Esc(0xE9)]) == [0xE9];
  }
}
