/** The printed AS path: numbers joined by dashes, with parentheses around sets. */
module PathText {
  import opened Xdr
  import opened SampleState
  import opened Encoding
  import opened Decimal

  // The tokens of a path, joined by dashes.

  function NumberTokens(ases: seq<u32>): seq<PathToken> {
    if ases == [] then []
    else if |ases| == 1 then [AsNumber(ases[0])]
    else [AsNumber(ases[0]), Dash] + NumberTokens(ases[1..])
  }

  function SegmentTokens(s: Segment): seq<PathToken> {
    if s.kind == AS_SET then [Open] + NumberTokens(s.ases) + [Close] else NumberTokens(s.ases)
  }

  function PathTokens(path: AsPath): seq<PathToken> {
    if path == [] then []
    else if |path| == 1 then SegmentTokens(path[0])
    else SegmentTokens(path[0]) + [Dash] + PathTokens(path[1..])
  }

  /** The lines that show these tokens. */
  function Pieces(ts: seq<PathToken>): (es: seq<Event>)
    ensures |es| == |ts| && forall i :: 0 <= i < |ts| ==> es[i] == PathPiece(ts[i])
  {
    seq(|ts|, i requires 0 <= i < |ts| => PathPiece(ts[i]))
  }

  predicate NoEmptySegment(path: AsPath) {
    forall s :: s in path ==> s.ases != []
  }

  /** Sets and sequences only, and no two sequences side by side. */
  predicate Printable(path: AsPath) {
    && NoEmptySegment(path)
    && (forall s :: s in path ==> s.kind == AS_SET || s.kind == AS_SEQUENCE)
    && (forall i :: 0 <= i < |path| - 1 ==> path[i].kind == AS_SET || path[i + 1].kind == AS_SET)
  }

  /** What is printed in front of the i-th number of a segment. */
  function Before(i: nat, first: bool, kind: u32): seq<Event> {
    (if i == 0 && first then [] else [PathPiece(Dash)]) + (if i == 0 && kind == AS_SET then [PathPiece(Open)] else [])
  }

  lemma {:induction false} AsLinesAreTokens(ases: seq<u32>, i: nat, first: bool, kind: u32)
    requires i < |ases|
    ensures AsLines(ases, i, first, kind) == Before(i, first, kind) + Pieces(NumberTokens(ases[i..]))
    decreases |ases| - i
  {
    hide Pieces, NumberTokens;
    AsLinesStep(ases, i, first, kind);
    NumberTokensStep(ases[i..]);
    if i + 1 < |ases| {
      AsLinesAreTokens(ases, i + 1, first, kind);
      assert ases[i..][1..] == ases[i + 1..];
      PiecesStep(ases[i], NumberTokens(ases[i + 1..]));
      Regroup(Before(i, first, kind), PathPiece(AsNumber(ases[i])), Pieces(NumberTokens(ases[i + 1..])));
    } else {
      OnePiece(AsNumber(ases[i]));
    }
  }

  lemma AsLinesStep(ases: seq<u32>, i: nat, first: bool, kind: u32)
    requires i < |ases|
    ensures i + 1 == |ases| ==> AsLines(ases, i, first, kind) == Before(i, first, kind) + [PathPiece(AsNumber(ases[i]))]
    ensures i + 1 < |ases| ==>
      AsLines(ases, i, first, kind)
      == Before(i, first, kind) + [PathPiece(AsNumber(ases[i]))] + AsLines(ases, i + 1, first, kind)
  {
  }

  lemma NumberTokensStep(ases: seq<u32>)
    requires ases != []
    ensures NumberTokens(ases)
         == if |ases| == 1 then [AsNumber(ases[0])] else [AsNumber(ases[0]), Dash] + NumberTokens(ases[1..])
  {
  }

  lemma Regroup(start: seq<Event>, e: Event, es: seq<Event>)
    ensures start + [e] + ([PathPiece(Dash)] + [] + es) == start + ([e, PathPiece(Dash)] + es)
  {
  }

  lemma SegmentLinesAreTokens(s: Segment, first: bool)
    requires s.ases != []
    ensures SegmentLines(s, first) == (if first then [] else [PathPiece(Dash)]) + Pieces(SegmentTokens(s))
  {
    hide Pieces, NumberTokens, AsLines;
    AsLinesAreTokens(s.ases, 0, first, s.kind);
    assert s.ases[0..] == s.ases;
    PiecesJoin([Open], NumberTokens(s.ases), [Close]);
    OnePiece(Open);
    OnePiece(Close);
  }

  lemma OnePiece(t: PathToken)
    ensures Pieces([t]) == [PathPiece(t)]
  {
  }

  lemma PiecesStep(n: u32, ts: seq<PathToken>)
    ensures Pieces([AsNumber(n), Dash] + ts) == [PathPiece(AsNumber(n)), PathPiece(Dash)] + Pieces(ts)
  {
  }

  lemma PiecesJoin(a: seq<PathToken>, b: seq<PathToken>, c: seq<PathToken>)
    ensures Pieces(a + b + c) == Pieces(a) + Pieces(b) + Pieces(c)
  {
  }

  lemma PathTokensStep(path: AsPath, k: nat)
    requires k < |path|
    ensures PathTokens(path[k..]) == SegmentTokens(path[k])
      + (if k + 1 == |path| then [] else [Dash] + PathTokens(path[k + 1..]))
  {
    hide SegmentTokens;
    assert k + 1 < |path| ==> path[k..][1..] == path[k + 1..];
  }

  /** What the decoder prints for a path without empty segments is its numbers,
      joined by dashes, the sets in parentheses. */
  lemma {:induction false} LinesAreTokens(path: AsPath, k: nat)
    requires NoEmptySegment(path) && k < |path|
    ensures SegmentsLines(path, k) == (if k == 0 then [] else [PathPiece(Dash)]) + Pieces(PathTokens(path[k..]))
    decreases |path| - k
  {
    hide SegmentLines, SegmentTokens, Pieces, PathTokens;
    assert path[k] in path;
    SegmentLinesAreTokens(path[k], k == 0);
    PathTokensStep(path, k);
    var own, start := SegmentTokens(path[k]), if k == 0 then [] else [PathPiece(Dash)];
    if k + 1 == |path| {
      assert SegmentsLines(path, k) == SegmentLines(path[k], k == 0) + [];
      assert own + [] == own;
    } else {
      var more := PathTokens(path[k + 1..]);
      LinesAreTokens(path, k + 1);
      PiecesJoin(own, [Dash], more);
      OnePiece(Dash);
      assert own + ([Dash] + more) == own + [Dash] + more;
      Regroup3(start, Pieces(own), [PathPiece(Dash)], Pieces(more));
    }
  }

  lemma Regroup3(a: seq<Event>, b: seq<Event>, c: seq<Event>, d: seq<Event>)
    ensures (a + b) + (c + d) == a + (b + c + d)
  {
  }

  // Reading tokens back.

  datatype Parsed<T> = Parsed(value: T, rest: seq<PathToken>) | Failed

  function ParseNumbers(ts: seq<PathToken>): (p: Parsed<seq<u32>>)
    ensures p.Parsed? ==> |p.rest| < |ts|
  {
    if ts == [] || !ts[0].AsNumber? then Failed
    else if |ts| >= 3 && ts[1].Dash? && ts[2].AsNumber? then
      var p := ParseNumbers(ts[2..]);
      if p.Parsed? then Parsed([ts[0].n] + p.value, p.rest) else Failed
    else Parsed([ts[0].n], ts[1..])
  }

  function ParseSegment(ts: seq<PathToken>): (p: Parsed<Segment>)
    ensures p.Parsed? ==> |p.rest| < |ts|
  {
    if ts != [] && ts[0].Open? then
      match ParseNumbers(ts[1..])
      case Parsed(ases, rest) =>
        if rest != [] && rest[0].Close? then Parsed(Segment(AS_SET, ases), rest[1..]) else Failed
      case Failed => Failed
    else
      match ParseNumbers(ts)
      case Parsed(ases, rest) => Parsed(Segment(AS_SEQUENCE, ases), rest)
      case Failed => Failed
  }

  function ParsePath(ts: seq<PathToken>): Parsed<AsPath>
    decreases |ts|
  {
    if ts == [] then Parsed([], []) else
      var s := ParseSegment(ts);
      if s.Failed? then Failed
      else if s.rest == [] then Parsed([s.value], [])
      else if !s.rest[0].Dash? || |s.rest| == 1 then Failed
      else
        var p := ParsePath(s.rest[1..]);
        if p.Parsed? then Parsed([s.value] + p.value, p.rest) else Failed
  }

  /** What may follow the numbers of a segment: not a dash and one more number. */
  predicate StopsNumbers(ts: seq<PathToken>) {
    |ts| < 2 || !ts[0].Dash? || !ts[1].AsNumber?
  }

  lemma NumbersStep(n: u32, ts: seq<PathToken>)
    requires ts != [] && ts[0].AsNumber?
    ensures var p, q := ParseNumbers(ts), ParseNumbers([AsNumber(n), Dash] + ts);
      if p.Parsed? then q == Parsed([n] + p.value, p.rest) else q == Failed
  {
    assert ([AsNumber(n), Dash] + ts)[2..] == ts;
  }

  lemma LastNumber(n: u32, ts: seq<PathToken>)
    requires StopsNumbers(ts)
    ensures ParseNumbers([AsNumber(n)] + ts) == Parsed([n], ts)
  {
    assert ([AsNumber(n)] + ts)[1..] == ts;
  }

  lemma {:induction false} NumbersParse(ases: seq<u32>, ts: seq<PathToken>)
    requires ases != [] && StopsNumbers(ts)
    ensures ParseNumbers(NumberTokens(ases) + ts) == Parsed(ases, ts)
  {
    hide ParseNumbers, StopsNumbers, NumberTokens;
    NumberTokensStep(ases);
    if |ases| == 1 {
      LastNumber(ases[0], ts);
      assert [ases[0]] == ases;
    } else {
      var tail := NumberTokens(ases[1..]);
      NumbersParse(ases[1..], ts);
      NumbersStart(ases[1..]);
      assert NumberTokens(ases) + ts == [AsNumber(ases[0]), Dash] + (tail + ts);
      NumbersStep(ases[0], tail + ts);
      assert [ases[0]] + ases[1..] == ases;
    }
  }

  lemma SegmentParses(s: Segment, ts: seq<PathToken>)
    requires s.ases != [] && (s.kind == AS_SET || (s.kind == AS_SEQUENCE && StopsNumbers(ts)))
    ensures ParseSegment(SegmentTokens(s) + ts) == Parsed(s, ts)
  {
    hide NumberTokens, ParseNumbers;
    if s.kind == AS_SET {
      var closing := [Close] + ts;
      NumbersParse(s.ases, closing);
      SetTokens(NumberTokens(s.ases), ts);
    } else {
      NumbersParse(s.ases, ts);
      NumbersStart(s.ases);
    }
  }

  lemma SetTokens(numbers: seq<PathToken>, ts: seq<PathToken>)
    ensures var all := [Open] + numbers + [Close] + ts;
            all[0] == Open && all[1..] == numbers + ([Close] + ts) && ([Close] + ts)[1..] == ts
  {
  }

  lemma NumbersStart(ases: seq<u32>)
    requires ases != []
    ensures NumberTokens(ases) != [] && NumberTokens(ases)[0] == AsNumber(ases[0])
  {
  }

  /** One segment in front of a dash and a path. */
  lemma PathStep(s: Segment, ts: seq<PathToken>, q: AsPath)
    requires s.ases != [] && (s.kind == AS_SET || (s.kind == AS_SEQUENCE && StopsNumbers([Dash] + ts)))
    requires ts != [] && ParsePath(ts) == Parsed(q, [])
    ensures ParsePath(SegmentTokens(s) + [Dash] + ts) == Parsed([s] + q, [])
  {
    hide ParseSegment, SegmentTokens;
    var tail := [Dash] + ts;
    assert SegmentTokens(s) + [Dash] + ts == SegmentTokens(s) + tail;
    SegmentParses(s, tail);
    SegmentStarts(s);
    assert tail[1..] == ts;
  }

  lemma {:induction false} TokensParse(path: AsPath)
    requires Printable(path)
    ensures ParsePath(PathTokens(path)) == Parsed(path, [])
  {
    hide ParseSegment, SegmentTokens, ParsePath;
    if path == [] {
      NothingParses();
    } else if |path| == 1 {
      assert path[0] in path;
      OneParses(path[0]);
      assert path == [path[0]];
    } else {
      assert path[0] in path;
      var tail := path[1..];
      TailPrintable(path);
      TailStarts(tail);
      assert path[1] == tail[0];
      TokensParse(tail);
      PathStep(path[0], PathTokens(tail), tail);
      assert path == [path[0]] + tail;
    }
  }

  lemma NothingParses()
    ensures ParsePath([]) == Parsed([], [])
  {
  }

  lemma OneParses(s: Segment)
    requires s.ases != [] && (s.kind == AS_SET || s.kind == AS_SEQUENCE)
    ensures ParsePath(SegmentTokens(s)) == Parsed([s], [])
  {
    hide ParseSegment, SegmentTokens;
    SegmentParses(s, []);
    SegmentStarts(s);
    assert SegmentTokens(s) + [] == SegmentTokens(s);
  }

  lemma SegmentStarts(s: Segment)
    requires s.ases != []
    ensures SegmentTokens(s) != []
    ensures if s.kind == AS_SET then SegmentTokens(s)[0] == Open else SegmentTokens(s)[0].AsNumber?
  {
  }

  lemma TailPrintable(path: AsPath)
    requires Printable(path) && path != []
    ensures Printable(path[1..])
  {
    assert forall s :: s in path[1..] ==> s in path;
  }

  /** A path starts with a parenthesis exactly when its first segment is a set. */
  lemma TailStarts(path: AsPath)
    requires Printable(path) && path != []
    ensures PathTokens(path) != []
    ensures if path[0].kind == AS_SET then PathTokens(path)[0] == Open else PathTokens(path)[0].AsNumber?
  {
    assert path[0] in path;
  }

  // Characters.

  function Render(t: PathToken): string {
    match t
    case PathStart => "dst_as_path "
    case Dash => "-"
    case Open => "("
    case AsNumber(n) => Dec(n)
    case Close => ")"
    case PathEnd => "\n"
  }

  function Text(ts: seq<PathToken>): string {
    if ts == [] then "" else Render(ts[0]) + Text(ts[1..])
  }

  /** The characters of a path, without tokens: numbers joined by dashes, with a set, of kind 1,
      in parentheses. */
  function NumbersText(ases: seq<u32>): string {
    if ases == [] then "" else if |ases| == 1 then Dec(ases[0]) else Dec(ases[0]) + "-" + NumbersText(ases[1..])
  }

  function PathCharacters(path: AsPath): string {
    if path == [] then "" else
      (if path[0].kind == 1 then "(" + NumbersText(path[0].ases) + ")" else NumbersText(path[0].ases))
      + (if |path| == 1 then "" else "-" + PathCharacters(path[1..]))
  }

  lemma {:induction false} TextJoins(a: seq<PathToken>, b: seq<PathToken>)
    ensures Text(a + b) == Text(a) + Text(b)
  {
    if a == [] {
      assert a + b == b;
    } else {
      assert (a + b)[1..] == a[1..] + b;
      TextJoins(a[1..], b);
    }
  }

  lemma {:induction false} NumbersShown(ases: seq<u32>)
    ensures Text(NumberTokens(ases)) == NumbersText(ases)
  {
    hide Dec;
    if |ases| == 1 {
      assert NumberTokens(ases)[1..] == [];
    } else if ases != [] {
      NumbersShown(ases[1..]);
      TextJoins([AsNumber(ases[0]), Dash], NumberTokens(ases[1..]));
      assert [AsNumber(ases[0]), Dash][1..] == [Dash] && [Dash][1..] == [];
    }
  }

  lemma OneShown(t: PathToken)
    ensures Text([t]) == Render(t)
  {
    assert [t][1..] == [];
  }

  lemma SegmentShown(s: Segment)
    ensures Text(SegmentTokens(s)) == if s.kind == 1 then "(" + NumbersText(s.ases) + ")" else NumbersText(s.ases)
  {
    hide Text, NumberTokens, NumbersText;
    NumbersShown(s.ases);
    TextJoins([Open] + NumberTokens(s.ases), [Close]);
    TextJoins([Open], NumberTokens(s.ases));
    OneShown(Open);
    OneShown(Close);
  }

  /** The tokens of a path read as characters. */
  lemma {:induction false} CharactersShown(path: AsPath)
    ensures Text(PathTokens(path)) == PathCharacters(path)
  {
    hide Text, SegmentTokens, NumbersText;
    if path == [] {
      NothingShown();
    } else {
      SegmentShown(path[0]);
      if |path| > 1 {
        CharactersShown(path[1..]);
        TextJoins(SegmentTokens(path[0]) + [Dash], PathTokens(path[1..]));
        TextJoins(SegmentTokens(path[0]), [Dash]);
        OneShown(Dash);
      }
    }
  }

  lemma NothingShown()
    ensures Text([]) == ""
  {
  }

  /** Cuts a text into tokens; none if some character starts no token. */
  function Lex(s: string): (ts: seq<PathToken>)
    decreases |s|
  {
    if s == "" then []
    else if s[0] == '-' then [Dash] + Lex(s[1..])
    else if s[0] == '(' then [Open] + Lex(s[1..])
    else if s[0] == ')' then [Close] + Lex(s[1..])
    else
      var n := Span(s);
      if n == 0 || Value(s[..n]) >= 0x1_0000_0000 then [] else [AsNumber(Value(s[..n]))] + Lex(s[n..])
  }

  predicate Inner(t: PathToken) {
    t.Dash? || t.Open? || t.Close? || t.AsNumber?
  }

  /** Tokens of a path: no two numbers side by side. */
  predicate Lexable(ts: seq<PathToken>) {
    && (forall t :: t in ts ==> Inner(t))
    && (forall i :: 0 <= i < |ts| - 1 ==> !ts[i].AsNumber? || !ts[i + 1].AsNumber?)
  }

  lemma {:induction false} TextLexes(ts: seq<PathToken>)
    requires Lexable(ts)
    ensures Lex(Text(ts)) == ts
  {
    if ts == [] {
    } else {
      assert ts[0] in ts;
      var tail := ts[1..];
      assert Lexable(tail) by {
        assert forall t :: t in tail ==> t in ts;
      }
      TextLexes(tail);
      if ts[0].AsNumber? && tail != [] {
        assert ts[1] in ts && tail[0] == ts[1];
        TextStart(tail);
      }
      hide Span, Value, Dec, Lexable;
      LexStep(ts[0], Text(tail));
    }
  }

  /** The first token of a text, in front of anything that does not go on a number. */
  lemma LexStep(t: PathToken, s: string)
    requires Inner(t) && (t.AsNumber? ==> s == "" || !IsDigit(s[0]))
    ensures Lex(Render(t) + s) == [t] + Lex(s)
  {
    hide Span, Value, Dec;
    if t.AsNumber? {
      ReadBack(t.n, s);
      assert IsDigit(Dec(t.n)[0]) by {
        assert Dec(t.n)[0] in Dec(t.n);
      }
      assert (Dec(t.n) + s)[0] == Dec(t.n)[0];
    } else {
      assert (Render(t) + s)[1..] == s;
    }
  }

  /** A text does not go on a number in front of it. */
  lemma TextStart(ts: seq<PathToken>)
    requires ts != [] && Inner(ts[0]) && !ts[0].AsNumber?
    ensures Text(ts) != "" && !IsDigit(Text(ts)[0])
  {
  }

  lemma LexableJoin(a: seq<PathToken>, b: seq<PathToken>)
    requires Lexable(a) && Lexable(b)
    requires a != [] && b != [] ==> !a[|a| - 1].AsNumber? || !b[0].AsNumber?
    ensures Lexable(a + b)
  {
  }

  lemma {:induction false} NumbersLexable(ases: seq<u32>)
    ensures Lexable(NumberTokens(ases))
  {
    if |ases| <= 1 {
    } else {
      NumbersLexable(ases[1..]);
      LexableJoin([AsNumber(ases[0]), Dash], NumberTokens(ases[1..]));
    }
  }

  lemma SegmentLexable(s: Segment)
    ensures Lexable(SegmentTokens(s))
  {
    hide NumberTokens, Lexable;
    NumbersLexable(s.ases);
    if s.kind == AS_SET {
      Parentheses();
      LexableJoin([Open], NumberTokens(s.ases));
      LexableJoin([Open] + NumberTokens(s.ases), [Close]);
    }
  }

  lemma Parentheses()
    ensures Lexable([]) && Lexable([Open]) && Lexable([Close]) && Lexable([Dash])
  {
  }

  lemma {:induction false} PathLexable(path: AsPath)
    ensures Lexable(PathTokens(path))
  {
    hide SegmentTokens, Lexable;
    if path == [] {
      Parentheses();
    } else {
      SegmentLexable(path[0]);
      if |path| > 1 {
        PathLexable(path[1..]);
        Parentheses();
        LexableJoin(SegmentTokens(path[0]), [Dash]);
        LexableJoin(SegmentTokens(path[0]) + [Dash], PathTokens(path[1..]));
      }
    }
  }

  /** The characters printed between "dst_as_path " and the end of the line. */
  function PrintedPath(path: AsPath): string {
    Text(PathTokens(path))
  }

  function ReadPath(s: string): Parsed<AsPath> {
    ParsePath(Lex(s))
  }

  /** The printed path can be read back. */
  lemma PrintedPathReadsBack(path: AsPath)
    requires Printable(path)
    ensures ReadPath(PrintedPath(path)) == Parsed(path, [])
  {
    PathLexable(path);
    TextLexes(PathTokens(path));
    TokensParse(path);
  }

  lemma PrintingIsInjective(p: AsPath, q: AsPath)
    requires Printable(p) && Printable(q) && PrintedPath(p) == PrintedPath(q)
    ensures p == q
  {
    PrintedPathReadsBack(p);
    PrintedPathReadsBack(q);
  }

  // Exactly which paths print alike: those that agree once neighbouring
  // sequences are run together.

  predicate SetsAndSequences(path: AsPath) {
    NoEmptySegment(path) && forall s :: s in path ==> s.kind == AS_SET || s.kind == AS_SEQUENCE
  }

  /** Puts a segment in front, as part of the first one if both are sequences. */
  function Prepend(s: Segment, path: AsPath): AsPath {
    if path != [] && s.kind == AS_SEQUENCE && path[0].kind == AS_SEQUENCE
    then [Segment(AS_SEQUENCE, s.ases + path[0].ases)] + path[1..]
    else [s] + path
  }

  function Merged(path: AsPath): AsPath {
    if path == [] then [] else Prepend(path[0], Merged(path[1..]))
  }

  lemma PrependPrintable(s: Segment, path: AsPath)
    requires Printable(path) && s.ases != [] && (s.kind == AS_SET || s.kind == AS_SEQUENCE)
    ensures Printable(Prepend(s, path))
  {
    if path != [] {
      assert path[0] in path;
      assert forall t :: t in path[1..] ==> t in path;
    }
  }

  lemma PrependTokens(s: Segment, path: AsPath)
    requires Printable(path) && s.ases != []
    ensures PathTokens(Prepend(s, path)) == SegmentTokens(s) + (if path == [] then [] else [Dash] + PathTokens(path))
  {
    if path != [] {
      assert path[0] in path;
      if s.kind == AS_SEQUENCE && path[0].kind == AS_SEQUENCE {
        hide NumberTokens;
        NumbersJoin(s.ases, path[0].ases);
        assert Prepend(s, path)[1..] == path[1..];
      } else {
        hide SegmentTokens;
        assert Prepend(s, path)[1..] == path;
      }
    }
  }

  lemma {:induction false} MergedPrintsAlike(path: AsPath)
    requires SetsAndSequences(path)
    ensures Printable(Merged(path)) && PathTokens(Merged(path)) == PathTokens(path)
  {
    hide Prepend, Printable, PathTokens, SegmentTokens;
    if path == [] {
      NothingPrintable();
    } else {
      assert path[0] in path;
      assert forall s :: s in path[1..] ==> s in path;
      MergedPrintsAlike(path[1..]);
      PrependPrintable(path[0], Merged(path[1..]));
      PrependTokens(path[0], Merged(path[1..]));
      PathTokensStep(path, 0);
      assert path[0..] == path;
      MergedEmpty(path[1..]);
    }
  }

  lemma NothingPrintable()
    ensures Printable([])
  {
  }

  lemma MergedEmpty(path: AsPath)
    ensures Merged(path) == [] <==> path == []
  {
  }

  /** Two paths that print alike. */
  lemma TwoPathsOneText()
    ensures var p := [Segment(AS_SEQUENCE, [1]), Segment(AS_SEQUENCE, [2])];
            var q := [Segment(AS_SEQUENCE, [1, 2])];
            p != q && PrintedPath(p) == PrintedPath(q)
  {
    hide NumberTokens, Text;
    var p := [Segment(AS_SEQUENCE, [1]), Segment(AS_SEQUENCE, [2])];
    var q := [Segment(AS_SEQUENCE, [1, 2])];
    NumbersJoin([1], [2]);
    assert [1] + [2] == [1, 2];
    assert p[1..] == [Segment(AS_SEQUENCE, [2])] && p[0] != q[0];
    assert PathTokens(p) == PathTokens(q);
  }

  lemma PrintsAlike(p: AsPath, q: AsPath)
    requires SetsAndSequences(p) && SetsAndSequences(q)
    ensures PrintedPath(p) == PrintedPath(q) <==> Merged(p) == Merged(q)
  {
    MergedPrintsAlike(p);
    MergedPrintsAlike(q);
    if PrintedPath(p) == PrintedPath(q) {
      PrintingIsInjective(Merged(p), Merged(q));
    }
  }

  lemma {:induction false} NumbersJoin(a: seq<u32>, b: seq<u32>)
    requires a != [] && b != []
    ensures NumberTokens(a + b) == NumberTokens(a) + [Dash] + NumberTokens(b)
  {
    if |a| == 1 {
      assert (a + b)[1..] == b;
    } else {
      assert (a + b)[1..] == a[1..] + b;
      NumbersJoin(a[1..], b);
    }
  }
}
