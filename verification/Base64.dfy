/** Unpadded standard base64 (sections 3.2 and 4 of RFC 4648), as Go's `base64.RawStdEncoding` reads and writes it. */
module Base64 {
  import opened Text

  type Byte = b: int | 0 <= b < 256
  type Sextet = v: int | 0 <= v < 64

  function Symbol(v: Sextet): (c: char) {
    if v < 26 then 'A' + v as char
    else if v < 52 then 'a' + (v - 26) as char
    else if v < 62 then '0' + (v - 52) as char
    else if v == 62 then '+'
    else '/'
  }

  function SextetOf(c: char): (v: Option<Sextet>)
    ensures v.Some? ==> Symbol(v.value) == c
  {
    if 'A' <= c <= 'Z' then Some(c as int - 'A' as int)
    else if 'a' <= c <= 'z' then Some(c as int - 'a' as int + 26)
    else if '0' <= c <= '9' then Some(c as int - '0' as int + 52)
    else if c == '+' then Some(62)
    else if c == '/' then Some(63)
    else None
  }

  lemma {:induction false} SymbolRoundTrip(v: Sextet)
    ensures SextetOf(Symbol(v)) == Some(v)
  {
    if v < 26 {
      assert Symbol(v) as int == 'A' as int + v;
    } else if v < 52 {
      assert Symbol(v) as int == 'a' as int + v - 26;
    } else if v < 62 {
      assert Symbol(v) as int == '0' as int + v - 52;
    }
  }

  predicate InAlphabet(s: string) {
    forall i :: 0 <= i < |s| ==> SextetOf(s[i]).Some?
  }

  // --- three bytes and four symbols ------------------------------------------------------------

  function Sextets(a: Byte, b: Byte, c: Byte): (Sextet, Sextet, Sextet, Sextet) {
    (a / 4, a % 4 * 16 + b / 16, b % 16 * 4 + c / 64, c % 64)
  }

  function Octets(p: Sextet, q: Sextet, r: Sextet, s: Sextet): (Byte, Byte, Byte) {
    (p * 4 + q / 16, q % 16 * 16 + r / 4, r % 4 * 64 + s)
  }

  function Number64(p: Sextet, q: Sextet, r: Sextet, s: Sextet): nat {
    ((p * 64 + q) * 64 + r) * 64 + s
  }

  function Number256(a: Byte, b: Byte, c: Byte): nat {
    (a * 256 + b) * 256 + c
  }

  lemma SextetsSpell(a: Byte, b: Byte, c: Byte, p: Sextet, q: Sextet, r: Sextet, s: Sextet)
    requires (p, q, r, s) == Sextets(a, b, c)
    ensures Number64(p, q, r, s) == Number256(a, b, c)
  {
  }

  lemma Digits64(p: Sextet, q: Sextet, r: Sextet, s: Sextet, p': Sextet, q': Sextet, r': Sextet, s': Sextet)
    requires Number64(p, q, r, s) == Number64(p', q', r', s')
    ensures p == p' && q == q' && r == r' && s == s'
  {
  }

  lemma Digits256(a: Byte, b: Byte, c: Byte, a': Byte, b': Byte, c': Byte)
    requires Number256(a, b, c) == Number256(a', b', c')
    ensures a == a' && b == b' && c == c'
  {
  }

  lemma OctetsSpell(a: Byte, b: Byte, c: Byte, p: Sextet, q: Sextet, r: Sextet, s: Sextet)
    requires (a, b, c) == Octets(p, q, r, s)
    ensures Number64(p, q, r, s) == Number256(a, b, c)
  {
  }

  /** Both forms of a group spell the same 24-bit number, most significant digit first. */
  lemma {:induction false} GroupIsOneNumber(a: Byte, b: Byte, c: Byte, p: Sextet, q: Sextet, r: Sextet, s: Sextet)
    ensures (p, q, r, s) == Sextets(a, b, c) <==> Number64(p, q, r, s) == Number256(a, b, c)
    ensures (a, b, c) == Octets(p, q, r, s) <==> Number64(p, q, r, s) == Number256(a, b, c)
  {
    var (p', q', r', s') := Sextets(a, b, c);
    SextetsSpell(a, b, c, p', q', r', s');
    var (a', b', c') := Octets(p, q, r, s);
    OctetsSpell(a', b', c', p, q, r, s);
    if Number64(p, q, r, s) == Number256(a, b, c) {
      Digits64(p, q, r, s, p', q', r', s');
      Digits256(a, b, c, a', b', c');
    }
  }

  /** The low bits of a short group are zero. */
  lemma ShortGroup(a: Byte, b: Byte)
    ensures Sextets(a, b, 0).3 == 0 && Sextets(a, 0, 0).2 == 0
  {
  }

  lemma {:induction false} GroupRoundTrip(a: Byte, b: Byte, c: Byte)
    ensures var (p, q, r, s) := Sextets(a, b, c); Octets(p, q, r, s) == (a, b, c)
  {
    var (p, q, r, s) := Sextets(a, b, c);
    GroupIsOneNumber(a, b, c, p, q, r, s);
  }

  // --- whole sequences -------------------------------------------------------------------------

  function Spread(bytes: seq<Byte>): seq<Sextet> {
    if bytes == [] then []
    else if |bytes| == 1 then var (p, q, _, _) := Sextets(bytes[0], 0, 0); [p, q]
    else if |bytes| == 2 then var (p, q, r, _) := Sextets(bytes[0], bytes[1], 0); [p, q, r]
    else var (p, q, r, s) := Sextets(bytes[0], bytes[1], bytes[2]); [p, q, r, s] + Spread(bytes[3..])
  }

  /** Unused low bits of a last, short group are not looked at; one sextet alone is refused. */
  function Gather(s: seq<Sextet>): Option<seq<Byte>> {
    if s == [] then Some([])
    else if |s| == 1 then None
    else if |s| == 2 then Some([Octets(s[0], s[1], 0, 0).0])
    else if |s| == 3 then var (a, b, _) := Octets(s[0], s[1], s[2], 0); Some([a, b])
    else
      var (a, b, c) := Octets(s[0], s[1], s[2], s[3]);
      var rest := Gather(s[4..]);
      if rest.None? then None else Some([a, b, c] + rest.value)
  }

  lemma {:induction false} OneRoundTrip(a: Byte)
    ensures Gather(Spread([a])) == Some([a])
  {
    ShortGroup(a, 0);
    GroupRoundTrip(a, 0, 0);
  }

  lemma {:induction false} TwoRoundTrip(a: Byte, b: Byte)
    ensures Gather(Spread([a, b])) == Some([a, b])
  {
    ShortGroup(a, b);
    GroupRoundTrip(a, b, 0);
  }

  lemma {:induction false} GatherOfSpread(bytes: seq<Byte>)
    ensures Gather(Spread(bytes)) == Some(bytes)
  {
    if |bytes| > 2 {
      GroupRoundTrip(bytes[0], bytes[1], bytes[2]);
      assert Spread(bytes)[4..] == Spread(bytes[3..]);
      GatherOfSpread(bytes[3..]);
      assert bytes == [bytes[0], bytes[1], bytes[2]] + bytes[3..];
    } else if |bytes| == 2 {
      assert bytes == [bytes[0], bytes[1]];
      TwoRoundTrip(bytes[0], bytes[1]);
    } else if |bytes| == 1 {
      assert bytes == [bytes[0]];
      OneRoundTrip(bytes[0]);
    }
  }

  /** Three bytes for every four sextets; a single one left over is refused. */
  lemma {:induction false} GatherLength(s: seq<Sextet>)
    ensures Gather(s).None? <==> |s| % 4 == 1
    ensures Gather(s).Some? ==> |Gather(s).value| == 3 * |s| / 4
  {
    if |s| > 3 { GatherLength(s[4..]); }
  }

  lemma {:induction false} DecodeLength(s: string)
    requires InAlphabet(s) && |s| % 4 != 1
    ensures Decode(s).Some? && |Decode(s).value| == 3 * |s| / 4
  {
    NoLineEnds(s);
    GatherLength(SextetsOf(s));
  }

  // --- text ------------------------------------------------------------------------------------

  function Symbols(sextets: seq<Sextet>): (s: string)
    ensures |s| == |sextets|
    ensures forall i :: 0 <= i < |s| ==> s[i] == Symbol(sextets[i])
  {
    seq(|sextets|, i requires 0 <= i < |sextets| => Symbol(sextets[i]))
  }

  function SextetsOf(s: string): (sextets: seq<Sextet>)
    requires InAlphabet(s)
    ensures |sextets| == |s|
    ensures forall i :: 0 <= i < |s| ==> sextets[i] == SextetOf(s[i]).value
  {
    seq(|s|, i requires 0 <= i < |s| => SextetOf(s[i]).value)
  }

  function Encode(bytes: seq<Byte>): string {
    Symbols(Spread(bytes))
  }

  /** The decoder passes over line ends anywhere. */
  function WithoutLineEnds(s: string): string {
    if s == "" then ""
    else if s[0] == '\r' || s[0] == '\n' then WithoutLineEnds(s[1..])
    else [s[0]] + WithoutLineEnds(s[1..])
  }

  function Decode(s: string): Option<seq<Byte>> {
    var symbols := WithoutLineEnds(s);
    if InAlphabet(symbols) then Gather(SextetsOf(symbols)) else None
  }

  lemma {:induction false} NoLineEnds(s: string)
    requires InAlphabet(s)
    ensures WithoutLineEnds(s) == s
  {
    if s != "" {
      assert SextetOf(s[0]).Some?;
      assert forall i :: 0 <= i < |s[1..]| ==> s[1..][i] == s[i + 1];
      NoLineEnds(s[1..]);
    }
  }

  lemma {:induction false} SymbolsRoundTrip(sextets: seq<Sextet>)
    ensures InAlphabet(Symbols(sextets)) && SextetsOf(Symbols(sextets)) == sextets
  {
    forall i | 0 <= i < |sextets| ensures SextetOf(Symbol(sextets[i])) == Some(sextets[i]) {
      SymbolRoundTrip(sextets[i]);
    }
  }

  lemma {:induction false} RoundTrip(bytes: seq<Byte>)
    ensures Decode(Encode(bytes)) == Some(bytes)
  {
    SymbolsRoundTrip(Spread(bytes));
    NoLineEnds(Encode(bytes));
    GatherOfSpread(bytes);
  }

  lemma {:induction false} LineEndsHideNothing(s: string, k: nat)
    requires k < |s| && InAlphabet(WithoutLineEnds(s))
    ensures SextetOf(s[k]).Some? || s[k] == '\r' || s[k] == '\n'
  {
    var rest := WithoutLineEnds(s[1..]);
    if s[0] != '\r' && s[0] != '\n' {
      assert WithoutLineEnds(s)[0] == s[0];
      assert WithoutLineEnds(s)[1..] == rest;
    }
    if k > 0 {
      LineEndsHideNothing(s[1..], k - 1);
    }
  }

  /** Everything a decoded text holds is a symbol or a line end. */
  lemma {:induction false} DecodedHolds(s: string, k: nat)
    requires Decode(s).Some? && k < |s|
    ensures SextetOf(s[k]).Some? || s[k] == '\r' || s[k] == '\n'
  {
    LineEndsHideNothing(s, k);
  }
}
