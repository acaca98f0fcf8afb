/**
 The standard base64 alphabet with padding (section 4 of RFC 4648), decoded as
 leniently as the library the transport calls: line breaks are skipped and the
 unused low bits of the last symbol are not checked.
 */
module Base64 {
  import opened Octets

  const PAD: Octet := 61        // '='
  const LINE_FEED: Octet := 10
  const CARRIAGE_RETURN: Octet := 13

  /** The symbol for a six-bit value. */
  function Symbol(i: int): (c: Octet)
    requires 0 <= i < 64
  {
    if i < 26 then 65 + i          // 'A'..'Z'
    else if i < 52 then 71 + i     // 'a'..'z'
    else if i < 62 then i - 4      // '0'..'9'
    else if i == 62 then 43        // '+'
    else 47                        // '/'
  }

  predicate IsSymbol(c: Octet) {
    65 <= c <= 90 || 97 <= c <= 122 || 48 <= c <= 57 || c == 43 || c == 47
  }

  /** The six-bit value of a symbol. */
  function Sextet(c: Octet): (i: int)
    requires IsSymbol(c)
    ensures 0 <= i < 64
    ensures Symbol(i) == c
  {
    if 65 <= c <= 90 then c - 65
    else if 97 <= c <= 122 then c - 71
    else if 48 <= c <= 57 then c + 4
    else if c == 43 then 62
    else 63
  }

  lemma SextetOfSymbol(i: int)
    requires 0 <= i < 64
    ensures IsSymbol(Symbol(i)) && Sextet(Symbol(i)) == i
  {
  }

  function Symbols(w: int, x: int, y: int, z: int): (s: Bytes)
    requires 0 <= w < 64 && 0 <= x < 64 && 0 <= y < 64 && 0 <= z < 64
    ensures |s| == 4
  {
    [Symbol(w), Symbol(x), Symbol(y), Symbol(z)]
  }

  function EncodeGroup(a: Octet, b: Octet, c: Octet): (s: Bytes)
    ensures |s| == 4
  {
    Symbols(a / 4, a % 4 * 16 + b / 16, b % 16 * 4 + c / 64, c % 64)
  }

  function Encode(b: Bytes): (s: Bytes)
  {
    if |b| == 0 then []
    else if |b| == 1 then EncodeGroup(b[0], 0, 0)[..2] + [PAD, PAD]
    else if |b| == 2 then EncodeGroup(b[0], b[1], 0)[..3] + [PAD]
    else EncodeGroup(b[0], b[1], b[2]) + Encode(b[3..])
  }

  function First(w: int, x: int): Octet
    requires 0 <= w < 64 && 0 <= x < 64
  {
    w * 4 + x / 16
  }

  function Second(x: int, y: int): Octet
    requires 0 <= x < 64 && 0 <= y < 64
  {
    x % 16 * 16 + y / 4
  }

  function Third(y: int, z: int): Octet
    requires 0 <= y < 64 && 0 <= z < 64
  {
    y % 4 * 64 + z
  }

  /** Decodes symbols with no line breaks among them; padding may only end the input. */
  function DecodeGroups(s: Bytes): (r: Option<Bytes>)
  {
    if |s| == 0 then Some([])
    else if |s| < 4 || !IsSymbol(s[0]) || !IsSymbol(s[1]) then None
    else
      var w, x := Sextet(s[0]), Sextet(s[1]);
      if s[2] == PAD then
        if s[3] == PAD && |s| == 4 then Some([First(w, x)]) else None
      else if !IsSymbol(s[2]) then None
      else
        var y := Sextet(s[2]);
        if s[3] == PAD then
          if |s| == 4 then Some([First(w, x), Second(x, y)]) else None
        else if !IsSymbol(s[3]) then None
        else
          var z := Sextet(s[3]);
          match DecodeGroups(s[4..])
          case None => None
          case Some(rest) => Some([First(w, x), Second(x, y), Third(y, z)] + rest)
  }

  predicate IsLineBreak(c: Octet) {
    c == LINE_FEED || c == CARRIAGE_RETURN
  }

  function SkipLineBreaks(s: Bytes): (r: Bytes)
  {
    if |s| == 0 then []
    else if IsLineBreak(s[0]) then SkipLineBreaks(s[1..])
    else [s[0]] + SkipLineBreaks(s[1..])
  }

  function Decode(s: Bytes): (r: Option<Bytes>)
  {
    DecodeGroups(SkipLineBreaks(s))
  }

  lemma SkipNothing(s: Bytes)
    requires forall i :: 0 <= i < |s| ==> !IsLineBreak(s[i])
    ensures SkipLineBreaks(s) == s
  {
    if |s| != 0 {
      SkipNothing(s[1..]);
    }
  }

  /** Repacking three octets as four sextets and back loses nothing. */
  lemma Repack(a: Octet, b: Octet, c: Octet)
    ensures First(a / 4, a % 4 * 16 + b / 16) == a
    ensures Second(a % 4 * 16 + b / 16, b % 16 * 4 + c / 64) == b
    ensures Third(b % 16 * 4 + c / 64, c % 64) == c
  {
    assert (a % 4 * 16 + b / 16) / 16 == a % 4;
    assert (a % 4 * 16 + b / 16) % 16 == b / 16;
    assert (b % 16 * 4 + c / 64) / 4 == b % 16;
    assert (b % 16 * 4 + c / 64) % 4 == c / 64;
  }

  lemma SextetsOfSymbols(w: int, x: int, y: int, z: int)
    requires 0 <= w < 64 && 0 <= x < 64 && 0 <= y < 64 && 0 <= z < 64
    ensures var s := Symbols(w, x, y, z);
            && IsSymbol(s[0]) && IsSymbol(s[1]) && IsSymbol(s[2]) && IsSymbol(s[3])
            && Sextet(s[0]) == w && Sextet(s[1]) == x && Sextet(s[2]) == y && Sextet(s[3]) == z
  {
    SextetOfSymbol(w);
    SextetOfSymbol(x);
    SextetOfSymbol(y);
    SextetOfSymbol(z);
  }

  lemma GroupRoundTrip(a: Octet, b: Octet, c: Octet)
    ensures var s := EncodeGroup(a, b, c);
            && IsSymbol(s[0]) && IsSymbol(s[1]) && IsSymbol(s[2]) && IsSymbol(s[3])
            && First(Sextet(s[0]), Sextet(s[1])) == a
            && Second(Sextet(s[1]), Sextet(s[2])) == b
            && Third(Sextet(s[2]), Sextet(s[3])) == c
  {
    SextetsOfSymbols(a / 4, a % 4 * 16 + b / 16, b % 16 * 4 + c / 64, c % 64);
    Repack(a, b, c);
  }

  /** Only the alphabet and the padding sign. */
  predicate IsCode(s: Bytes) {
    forall i :: 0 <= i < |s| ==> IsSymbol(s[i]) || s[i] == PAD
  }

  lemma CodeConcat(s: Bytes, t: Bytes)
    requires IsCode(s) && IsCode(t)
    ensures IsCode(s + t)
  {
  }

  lemma FourSymbolsAreCode(s: Bytes)
    requires |s| == 4 && IsSymbol(s[0]) && IsSymbol(s[1]) && IsSymbol(s[2]) && IsSymbol(s[3])
    ensures IsCode(s)
  {
  }

  lemma GroupIsCode(a: Octet, b: Octet, c: Octet)
    ensures IsCode(EncodeGroup(a, b, c))
  {
    GroupRoundTrip(a, b, c);
    FourSymbolsAreCode(EncodeGroup(a, b, c));
  }

  /** Encoded text never holds a line break or a record separator. */
  lemma {:induction false} EncodeIsCode(b: Bytes)
    ensures IsCode(Encode(b))
  {
    if |b| == 1 {
      GroupIsCode(b[0], 0, 0);
    } else if |b| == 2 {
      GroupIsCode(b[0], b[1], 0);
    } else if |b| >= 3 {
      GroupIsCode(b[0], b[1], b[2]);
      EncodeIsCode(b[3..]);
      CodeConcat(EncodeGroup(b[0], b[1], b[2]), Encode(b[3..]));
    }
  }

  lemma DecodeFullGroup(g: Bytes, rest: Bytes)
    requires |g| == 4 && IsSymbol(g[0]) && IsSymbol(g[1]) && IsSymbol(g[2]) && IsSymbol(g[3])
    requires DecodeGroups(rest).Some?
    ensures DecodeGroups(g + rest)
         == Some([First(Sextet(g[0]), Sextet(g[1])), Second(Sextet(g[1]), Sextet(g[2])),
                  Third(Sextet(g[2]), Sextet(g[3]))] + DecodeGroups(rest).value)
  {
    assert (g + rest)[4..] == rest;
  }

  lemma DecodePaddedGroups(g: Bytes)
    requires |g| == 4 && IsSymbol(g[0]) && IsSymbol(g[1]) && IsSymbol(g[2])
    ensures DecodeGroups(g[..2] + [PAD, PAD]) == Some([First(Sextet(g[0]), Sextet(g[1]))])
    ensures DecodeGroups(g[..3] + [PAD])
         == Some([First(Sextet(g[0]), Sextet(g[1])), Second(Sextet(g[1]), Sextet(g[2]))])
  {
  }

  lemma OneRoundTrip(a: Octet)
    ensures DecodeGroups(EncodeGroup(a, 0, 0)[..2] + [PAD, PAD]) == Some([a])
  {
    GroupRoundTrip(a, 0, 0);
    DecodePaddedGroups(EncodeGroup(a, 0, 0));
  }

  lemma TwoRoundTrip(a: Octet, b: Octet)
    ensures DecodeGroups(EncodeGroup(a, b, 0)[..3] + [PAD]) == Some([a, b])
  {
    GroupRoundTrip(a, b, 0);
    DecodePaddedGroups(EncodeGroup(a, b, 0));
  }

  lemma ThreeRoundTrip(a: Octet, b: Octet, c: Octet, code: Bytes, rest: Bytes)
    requires DecodeGroups(code) == Some(rest)
    ensures DecodeGroups(EncodeGroup(a, b, c) + code) == Some([a, b, c] + rest)
  {
    GroupRoundTrip(a, b, c);
    DecodeFullGroup(EncodeGroup(a, b, c), code);
  }

  lemma EncodeLong(b: Bytes)
    requires |b| >= 3
    ensures Encode(b) == EncodeGroup(b[0], b[1], b[2]) + Encode(b[3..])
  {
  }

  lemma {:induction false} GroupsRoundTrip(b: Bytes)
    ensures DecodeGroups(Encode(b)) == Some(b)
  {
    if |b| >= 3 {
      GroupsRoundTrip(b[3..]);
      EncodeLong(b);
      ThreeRoundTrip(b[0], b[1], b[2], Encode(b[3..]), b[3..]);
      assert b == [b[0], b[1], b[2]] + b[3..];
    } else if |b| == 2 {
      TwoRoundTrip(b[0], b[1]);
      assert b == [b[0], b[1]];
    } else if |b| == 1 {
      OneRoundTrip(b[0]);
      assert b == [b[0]];
    }
  }

  /** Decoding inverts encoding on every byte string. */
  lemma RoundTrip(b: Bytes)
    ensures Decode(Encode(b)) == Some(b)
  {
    EncodeIsCode(b);
    SkipNothing(Encode(b));
    GroupsRoundTrip(b);
  }
}
