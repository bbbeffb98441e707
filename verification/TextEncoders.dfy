/** The two text encoders for untrusted bytes: URL encoding of keys and the hex
    dump of headers, each writing into a buffer of fixed size. */
module TextEncoders {
  import opened Xdr

  const ZERO: byte := 48
  const CAP_A: byte := 65
  const PLUS: byte := 43
  const PERCENT: byte := 37
  const DASH: byte := 45
  const NEWLINE: byte := 10
  const SPACE: byte := 32

  function Bin2Hex(nib: nat): byte
    requires nib < 16
  {
    if nib < 10 then ZERO + nib else CAP_A - 10 + nib
  }

  predicate IsHexDigit(c: byte) {
    ZERO <= c < ZERO + 10 || CAP_A <= c < CAP_A + 6
  }

  function HexValue(c: byte): (v: nat)
    ensures v < 16
  {
    if ZERO <= c < ZERO + 10 then c - ZERO else if CAP_A <= c < CAP_A + 6 then c - CAP_A + 10 else 0
  }

  /** The two digits of a byte. */
  function Hex2(b: byte): (s: seq<byte>)
    ensures |s| == 2 && IsHexDigit(s[0]) && IsHexDigit(s[1]) && HexValue(s[0]) * 16 + HexValue(s[1]) == b
  {
    [Bin2Hex(b / 16), Bin2Hex(b % 16)]
  }

  // URL encoding of 7-bit text.

  predicate IsAlnum(c: byte) {
    48 <= c <= 57 || 65 <= c <= 90 || 97 <= c <= 122
  }

  predicate IsSpace(c: byte) {
    c == SPACE || 9 <= c <= 13
  }

  /** A C string of 7-bit characters. */
  predicate SevenBit(s: seq<byte>) {
    forall c :: c in s ==> 0 < c < 128
  }

  function EncodeChar(c: byte): (s: seq<byte>)
    ensures 1 <= |s| <= 3
  {
    if IsAlnum(c) then [c] else if IsSpace(c) then [PLUS] else [PERCENT] + Hex2(c)
  }

  function Encoded(s: seq<byte>): (e: seq<byte>)
    ensures |s| <= |e| <= 3 * |s|
  {
    if s == [] then [] else EncodeChar(s[0]) + Encoded(s[1..])
  }

  /** Percent decoding with plus signs for spaces (section 2.1 of RFC 3986). */
  function Decoded(e: seq<byte>): seq<byte> {
    if e == [] then []
    else if e[0] == PERCENT && |e| >= 3 && IsHexDigit(e[1]) && IsHexDigit(e[2]) then
      [HexValue(e[1]) * 16 + HexValue(e[2])] + Decoded(e[3..])
    else if e[0] == PLUS then [SPACE] + Decoded(e[1..])
    else [e[0]] + Decoded(e[1..])
  }

  /** Every kind of white space as a space. */
  function Spaced(s: seq<byte>): (t: seq<byte>)
    ensures |t| == |s|
  {
    if s == [] then [] else [if IsSpace(s[0]) then SPACE else s[0]] + Spaced(s[1..])
  }

  lemma DecodeChar(c: byte, e: seq<byte>)
    ensures Decoded(EncodeChar(c) + e) == [if IsSpace(c) then SPACE else c] + Decoded(e)
  {
    var s := EncodeChar(c) + e;
    if IsAlnum(c) || IsSpace(c) {
      assert s[1..] == e;
    } else {
      assert s[3..] == e;
      assert s[1] == Hex2(c)[0] && s[2] == Hex2(c)[1];
    }
  }

  /** Decoding gives back the text, with its white space as spaces. */
  lemma {:induction false} DecodeEncoded(s: seq<byte>)
    ensures Decoded(Encoded(s)) == Spaced(s)
  {
    if s == [] {
    } else {
      DecodeEncoded(s[1..]);
      DecodeChar(s[0], Encoded(s[1..]));
    }
  }

  lemma {:induction false} SpacesEncodeAlike(s: seq<byte>)
    ensures Encoded(Spaced(s)) == Encoded(s)
  {
    if s == [] {
    } else {
      SpacesEncodeAlike(s[1..]);
      assert Spaced(s)[1..] == Spaced(s[1..]);
    }
  }

  /** Two texts have the same encoding exactly when they differ in no more than the
      kind of their white space. */
  lemma EncodedAlike(s: seq<byte>, t: seq<byte>)
    ensures Encoded(s) == Encoded(t) <==> Spaced(s) == Spaced(t)
  {
    DecodeEncoded(s);
    DecodeEncoded(t);
    SpacesEncodeAlike(s);
    SpacesEncodeAlike(t);
  }

  /** Nothing but letters, digits, plus and percent signs comes out. */
  lemma {:induction false} EncodedIsPlain(s: seq<byte>)
    ensures forall c :: c in Encoded(s) ==> IsAlnum(c) || c == PLUS || c == PERCENT
  {
    if s == [] {
    } else {
      EncodedIsPlain(s[1..]);
    }
  }

  lemma {:induction false} EncodedSoFar(s: seq<byte>, i: nat)
    requires i < |s|
    ensures Encoded(s[..i + 1]) == Encoded(s[..i]) + EncodeChar(s[i])
  {
    if i == 0 {
      assert s[..1] == [s[0]] && s[..0] == [];
    } else {
      assert s[..i + 1][1..] == s[1..][..i] && s[..i][1..] == s[1..][..i - 1];
      EncodedSoFar(s[1..], i - 1);
    }
  }

  /** Just the letters and digits stay as they are, and just white space becomes a plus;
      every other character becomes a percent sign and two digits. */
  lemma CharEncoded(c: byte)
    ensures EncodeChar(c) == [c] <==>
              ('0' as int <= c <= '9' as int || 'A' as int <= c <= 'Z' as int || 'a' as int <= c <= 'z' as int)
    ensures EncodeChar(c) == ['+' as int] <==>
              c as char in {' ', '\t', '\n', 11 as char, 12 as char, '\r'}
    ensures EncodeChar(c) == [c] || EncodeChar(c) == ['+' as int] || EncodeChar(c) == ['%' as int] + Hex2(c)
  {
    hide Hex2;
  }

  lemma DigitShown(nib: nat)
    requires nib < 16
    ensures Bin2Hex(nib) == "0123456789ABCDEF"[nib] as int
  {
  }

  /** Writes bytes at w, where the buffer still is as it was, and returns the next place. */
  method Put(buf: array<byte>, w: nat, cs: seq<byte>, ghost was: seq<byte>) returns (next: nat)
    requires w + |cs| <= buf.Length == |was| && buf[w..] == was[w..]
    modifies buf
    ensures next == w + |cs|
    ensures buf[..next] == old(buf[..w]) + cs && buf[next..] == was[next..]
  {
    forall i | 0 <= i < |cs| {
      buf[w + i] := cs[i];
    }
    next := w + |cs|;
    assert forall k :: next <= k < buf.Length ==> buf[k] == old(buf[w..])[k - w] == was[w..][k - w];
  }

  method PutChar(c: byte, out: array<byte>, w: nat, ghost was: seq<byte>) returns (next: nat)
    requires w + |EncodeChar(c)| <= out.Length == |was| && out[w..] == was[w..]
    modifies out
    ensures next == w + |EncodeChar(c)|
    ensures out[..next] == old(out[..w]) + EncodeChar(c) && out[next..] == was[next..]
  {
    hide Hex2, EncodeChar;
    CharCases(c);
    if IsAlnum(c) {
      next := Put(out, w, [c], was);
    } else if IsSpace(c) {
      next := Put(out, w, [PLUS], was);
    } else {
      next := Put(out, w, [PERCENT, Bin2Hex(c / 16), Bin2Hex(c % 16)], was);
    }
  }

  /** Writes the encoding and a final zero, if there is room for the longest one. */
  method UrlEncode(s: seq<byte>, out: array<byte>) returns (ok: bool)
    requires SevenBit(s)
    modifies out
    ensures ok == (3 * |s| + 1 <= out.Length)
    ensures !ok ==> out[..] == old(out[..])
    ensures ok ==> var e := Encoded(s);
              && |e| + 1 <= 3 * |s| + 1
              && out[..|e|] == e && out[|e|] == 0 && out[|e| + 1..] == old(out[|e| + 1..])
  {
    ok := out.Length >= 3 * |s| + 1;
    if !ok {
      return;
    }
    var r, w := 0, 0;
    ghost var was := out[..];
    while r < |s|
      invariant r <= |s| && w == |Encoded(s[..r])|
      invariant out[..w] == Encoded(s[..r]) && out[w..] == was[w..]
    {
      hide Encoded, EncodeChar;
      EncodedSoFar(s, r);
      w := PutChar(s[r], out, w, was);
      r := r + 1;
    }
    assert s[..r] == s;
    w := Put(out, w, [0], was);
  }

  lemma CharCases(c: byte)
    ensures EncodeChar(c) == if IsAlnum(c) then [c] else if IsSpace(c) then [PLUS]
                             else [PERCENT, Bin2Hex(c / 16), Bin2Hex(c % 16)]
  {
  }

  // Hex dumps.

  const MARKER: seq<byte> := [60, 42, 62, 45]

  /** What is written for the i-th of len bytes. */
  function Piece(a: seq<byte>, i: nat, marker: int, per: nat): (s: seq<byte>)
    requires i < |a| && per > 0
    ensures |s| <= 7
  {
    (if marker > 0 && i == marker then MARKER else []) + Hex2(a[i])
    + (if i > 0 && i % per == 0 then [NEWLINE] else if i < |a| - 1 then [DASH] else [])
  }

  /** What is written for the first n bytes. */
  function Dump(a: seq<byte>, n: nat, marker: int, per: nat): (s: seq<byte>)
    requires n <= |a| && per > 0
  {
    if n == 0 then [] else Dump(a, n - 1, marker, per) + Piece(a, n - 1, marker, per)
  }

  /** The hex digits of a text, without separators, line ends and marker. */
  function Stripped(s: seq<byte>): (t: seq<byte>)
    ensures forall c :: c in t ==> IsHexDigit(c)
  {
    if s == [] then [] else (if IsHexDigit(s[0]) then [s[0]] else []) + Stripped(s[1..])
  }

  function HexOfAll(bs: seq<byte>): seq<byte> {
    if bs == [] then [] else HexOfAll(bs[..|bs| - 1]) + Hex2(bs[|bs| - 1])
  }

  lemma {:induction false} StrippedJoin(s: seq<byte>, t: seq<byte>)
    ensures Stripped(s + t) == Stripped(s) + Stripped(t)
  {
    if s == [] {
      assert s + t == t;
    } else {
      assert (s + t)[1..] == s[1..] + t;
      StrippedJoin(s[1..], t);
    }
  }

  lemma StrippedPiece(a: seq<byte>, i: nat, marker: int, per: nat)
    requires i < |a| && per > 0
    ensures Stripped(Piece(a, i, marker, per)) == Hex2(a[i])
  {
    hide Hex2, Stripped;
    var front := if marker > 0 && i == marker then MARKER else [];
    var back := if i > 0 && i % per == 0 then [NEWLINE] else if i < |a| - 1 then [DASH] else [];
    StrippedJoin(front + Hex2(a[i]), back);
    StrippedJoin(front, Hex2(a[i]));
    StrippedConstants();
    StrippedDigits(Hex2(a[i]));
  }

  lemma StrippedDigits(h: seq<byte>)
    requires |h| == 2 && IsHexDigit(h[0]) && IsHexDigit(h[1])
    ensures Stripped(h) == h
  {
    assert h[1..] == [h[1]] && Stripped([h[1]]) == [h[1]] + Stripped([]);
  }

  lemma StrippedConstants()
    ensures Stripped([]) == [] && Stripped(MARKER) == [] && Stripped([NEWLINE]) == [] && Stripped([DASH]) == []
  {
    assert MARKER[1..] == [42, 62, 45] && [42, 62, 45][1..] == [62, 45] && [62, 45][1..] == [45];
    assert Stripped([45]) == [] && Stripped([62, 45]) == [] && Stripped([42, 62, 45]) == [];
  }

  lemma HexStep(a: seq<byte>, n: nat)
    requires 0 < n <= |a|
    ensures HexOfAll(a[..n]) == HexOfAll(a[..n - 1]) + Hex2(a[n - 1])
  {
    hide Hex2;
    assert a[..n][..n - 1] == a[..n - 1];
  }

  /** Without its separators and its marker a dump is the hex of the bytes it covers. */
  lemma {:induction false} DumpIsHex(a: seq<byte>, n: nat, marker: int, per: nat)
    requires n <= |a| && per > 0
    ensures Stripped(Dump(a, n, marker, per)) == HexOfAll(a[..n])
  {
    hide Piece, HexOfAll, Hex2, Stripped, Dump;
    if n == 0 {
      NothingDumped(a, marker, per);
    } else {
      DumpIsHex(a, n - 1, marker, per);
      DumpStep(a, n - 1, marker, per);
      StrippedJoin(Dump(a, n - 1, marker, per), Piece(a, n - 1, marker, per));
      StrippedPiece(a, n - 1, marker, per);
      HexStep(a, n);
    }
  }

  lemma NothingDumped(a: seq<byte>, marker: int, per: nat)
    requires per > 0
    ensures Stripped(Dump(a, 0, marker, per)) == [] && HexOfAll(a[..0]) == []
  {
  }

  function Unhex(s: seq<byte>): seq<byte> {
    if |s| < 2 then [] else Unhex(s[..|s| - 2]) + [HexValue(s[|s| - 2]) * 16 + HexValue(s[|s| - 1])]
  }

  lemma UnhexStep(s: seq<byte>, b: byte)
    ensures Unhex(s + Hex2(b)) == Unhex(s) + [b]
  {
    hide Hex2, HexValue;
    var h := Hex2(b);
    assert (s + h)[..|s + h| - 2] == s;
    assert (s + h)[|s|] == h[0] && (s + h)[|s| + 1] == h[1];
  }

  lemma {:induction false} UnhexOfHex(bs: seq<byte>)
    ensures Unhex(HexOfAll(bs)) == bs
  {
    hide Hex2, HexOfAll, Unhex;
    if bs == [] {
      NothingUnhexed();
    } else {
      var n := |bs|;
      UnhexOfHex(bs[..n - 1]);
      HexStep(bs, n);
      UnhexStep(HexOfAll(bs[..n - 1]), bs[n - 1]);
      LastByte(bs);
    }
  }

  lemma NothingUnhexed()
    ensures Unhex(HexOfAll([])) == []
  {
  }

  lemma LastByte(bs: seq<byte>)
    requires bs != []
    ensures bs[..|bs|] == bs && bs[..|bs| - 1] + [bs[|bs| - 1]] == bs
  {
  }

  /** A dump can be read back: its digits are those of the bytes it covers. */
  lemma DumpReadsBack(a: seq<byte>, n: nat, marker: int, per: nat)
    requires n <= |a| && per > 0
    ensures Unhex(Stripped(Dump(a, n, marker, per))) == a[..n]
  {
    DumpIsHex(a, n, marker, per);
    UnhexOfHex(a[..n]);
  }

  /** Writes what is due for the i-th byte. */
  method PutByte(a: seq<byte>, i: nat, buf: array<byte>, w: nat, marker: int, per: nat, ghost was: seq<byte>)
    returns (next: nat)
    requires i < |a| && per > 0 && w + 7 <= buf.Length == |was| && buf[w..] == was[w..]
    modifies buf
    ensures next == w + |Piece(a, i, marker, per)|
    ensures buf[..next] == old(buf[..w]) + Piece(a, i, marker, per) && buf[next..] == was[next..]
  {
    hide Hex2;
    DigitsOf(a[i]);
    next := w;
    if marker > 0 && i == marker {
      next := Put(buf, next, MARKER, was);
    }
    next := Put(buf, next, [Bin2Hex(a[i] / 16), Bin2Hex(a[i] % 16)], was);
    if i > 0 && i % per == 0 {
      next := Put(buf, next, [NEWLINE], was);
    } else if i < |a| - 1 {
      next := Put(buf, next, [DASH], was);
    }
  }

  lemma DigitsOf(c: byte)
    ensures Hex2(c) == [Bin2Hex(c / 16), Bin2Hex(c % 16)]
  {
  }

  /** Writes as many bytes of the dump as fit, and a final zero. */
  method PrintHex(a: seq<byte>, buf: array<byte>, marker: int, per: nat) returns (b: nat, shown: nat)
    requires buf.Length > 0 && per > 0
    modifies buf
    ensures shown <= |a| && b == |Dump(a, shown, marker, per)| && b < buf.Length
    ensures buf[..b] == Dump(a, shown, marker, per) && buf[b] == 0 && buf[b + 1..] == old(buf[b + 1..])
    ensures shown == |a| || b > buf.Length - 10
    ensures buf.Length >= 10 ==> b <= buf.Length - 3
  {
    hide Dump, Piece;
    b, shown := 0, 0;
    ghost var was := buf[..];
    NothingYet(a, marker, per);
    while shown < |a|
      invariant shown <= |a| && b == |Dump(a, shown, marker, per)|
      invariant b <= buf.Length - 3 || (b == 0 && buf.Length < 10)
      invariant buf[..b] == Dump(a, shown, marker, per) && buf[b..] == was[b..]
    {
      if b > buf.Length - 10 {
        break;
      }
      b := PutByte(a, shown, buf, b, marker, per, was);
      DumpStep(a, shown, marker, per);
      shown := shown + 1;
    }
    var _ := Put(buf, b, [0], was);
  }

  lemma NothingYet(a: seq<byte>, marker: int, per: nat)
    requires per > 0
    ensures Dump(a, 0, marker, per) == []
  {
  }

  lemma DumpStep(a: seq<byte>, n: nat, marker: int, per: nat)
    requires n < |a| && per > 0
    ensures Dump(a, n + 1, marker, per) == Dump(a, n, marker, per) + Piece(a, n, marker, per)
  {
  }

  /** Where the digits of the i-th byte are: three characters for every byte in front of it,
      and four for the marker. */
  function Place(i: nat, marker: int): nat {
    3 * i + if 0 < marker <= i then 4 else 0
  }

  lemma {:induction false} DumpLength(a: seq<byte>, n: nat, marker: int, per: nat)
    requires n < |a| && per > 0
    ensures |Dump(a, n, marker, per)| == 3 * n + if 0 < marker < n then 4 else 0
  {
    if n == 0 {
    } else {
      DumpLength(a, n - 1, marker, per);
    }
  }

  /** A dump shows its bytes in order, each as two digits. Behind a byte comes a line end if
      its number is a positive multiple of the bytes for a line, a dash otherwise, and nothing
      at the end of the input; the marker is in front of its byte. */
  lemma {:induction false} DumpShows(a: seq<byte>, n: nat, marker: int, per: nat, i: nat)
    requires i < n <= |a| && per > 0
    ensures var d, at := Dump(a, n, marker, per), Place(i, marker);
            && at + 2 <= |d| && d[at..at + 2] == Hex2(a[i])
            && (i > 0 && i % per == 0 ==> at + 3 <= |d| && d[at + 2] == '\n' as int)
            && (i + 1 < |a| && (i == 0 || i % per != 0) ==> at + 3 <= |d| && d[at + 2] == '-' as int)
            && (i + 1 == |a| && (i == 0 || i % per != 0) ==> |d| == at + 2)
            && (0 < marker == i ==> at >= 4 && d[at - 4..at] == [60, 42, 62, 45])
    decreases n
  {
    hide Hex2;
    if i < n - 1 {
      DumpShows(a, n - 1, marker, per, i);
      var d, e := Dump(a, n, marker, per), Dump(a, n - 1, marker, per);
      assert d == e + Piece(a, n - 1, marker, per);
    } else {
      DumpLength(a, n - 1, marker, per);
    }
  }
}
