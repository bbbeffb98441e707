/** From the words of a gateway record to the text that is printed and back. Every
    path that is read fine is the one its words encode, whatever was stored
    before; and the line printed for it says which path it was. */
module PathPrinted {
  import opened Xdr
  import opened SampleState
  import opened Reader
  import opened Encoding
  import opened PathText
  import RoundTrip

  // The path that is delivered is the one on the wire.

  /** The path with more numbers in its last segment. */
  function Lengthened(path: AsPath, ws: seq<u32>): AsPath
    requires path != []
  {
    var n := |path| - 1;
    path[..n] + [Segment(path[n].kind, path[n].ases + ws)]
  }

  lemma OneTaken(i: nat, len: u32, first: bool, last: bool, kind: u32, n: u32, x: St)
    requires x.path != []
    ensures var y := TakeAsNumber(i, len, first, last, kind, n, x);
            y.rest == x.rest && y.path == Lengthened(x.path, [n])
  {
    var k := |x.path| - 1;
    assert x.path[k].(ases := x.path[k].ases + [n]) == Segment(x.path[k].kind, x.path[k].ases + [n]);
    assert ExtendPath(x.path, n) == Lengthened(x.path, [n]);
  }

  lemma LengthenedTwice(path: AsPath, ws: seq<u32>, k: nat)
    requires path != [] && 0 < k <= |ws|
    ensures var one := Lengthened(path, [ws[0]]);
            one != [] && Lengthened(one, ws[1..][..k - 1]) == Lengthened(path, ws[..k])
  {
    var n, one, rest := |path| - 1, Lengthened(path, [ws[0]]), ws[1..][..k - 1];
    assert ws[..k] == [ws[0]] + rest;
    assert |one| == n + 1 && one[..n] == path[..n] && one[n] == Segment(path[n].kind, path[n].ases + [ws[0]]);
    assert path[n].ases + [ws[0]] + rest == path[n].ases + ([ws[0]] + rest);
  }

  lemma LengthenedByNone(path: AsPath)
    requires path != []
    ensures Lengthened(path, []) == path
  {
    var n := |path| - 1;
    assert path[n].ases + [] == path[n].ases;
  }

  lemma {:induction false} NumbersTaken(i: nat, len: u32, first: bool, last: bool, kind: u32, x: St)
    requires i <= len && x.path != []
    ensures var o := ReadAsNumbers(i, len, first, last, kind, x);
            o.sig.Fine? ==>
              && len - i <= |x.rest| && o.st.rest == x.rest[len - i..]
              && o.st.path == Lengthened(x.path, x.rest[..len - i])
    decreases len - i
  {
    hide TakeAsNumber, Lengthened;
    if i == len {
      LengthenedByNone(x.path);
      assert x.rest[..0] == [] && x.rest[0..] == x.rest;
    } else if |x.rest| > 0 {
      var y := TakeAsNumber(i, len, first, last, kind, x.rest[0], x.(rest := x.rest[1..]));
      OneTaken(i, len, first, last, kind, x.rest[0], x.(rest := x.rest[1..]));
      LengthenedNonEmpty(x.path, [x.rest[0]]);
      NumbersTaken(i + 1, len, first, last, kind, y);
      if len - i <= |x.rest| {
        LengthenedTwice(x.path, x.rest, len - i);
      }
    }
  }

  lemma LengthenedNonEmpty(path: AsPath, ws: seq<u32>)
    requires path != []
    ensures Lengthened(path, ws) != []
  {
  }

  lemma SegmentTaken(seg: nat, total: u32, x: St)
    ensures var o := ReadSegment(seg, total, x);
            o.sig.Fine? ==>
              && |x.rest| >= 2 && x.rest[1] <= |x.rest| - 2
              && o.st.rest == x.rest[2..][x.rest[1]..]
              && o.st.path == x.path + [Segment(x.rest[0], x.rest[2..][..x.rest[1]])]
  {
    hide ReadAsNumbers;
    if |x.rest| >= 2 {
      var begun := [Segment(x.rest[0], [])];
      var z := SetPath(x.path + begun, x.(rest := x.rest[2..]));
      assert x.rest[1..][1..] == x.rest[2..];
      NumbersTaken(0, x.rest[1], seg == 0, seg + 1 == total, x.rest[0], z);
      if x.rest[1] <= |x.rest| - 2 {
        NewSegment(x.path, x.rest[0], x.rest[2..][..x.rest[1]]);
      }
    }
  }

  lemma NewSegment(path: AsPath, kind: u32, ws: seq<u32>)
    ensures Lengthened(path + [Segment(kind, [])], ws) == path + [Segment(kind, ws)]
  {
    assert [] + ws == ws;
  }

  lemma {:induction false} SegmentsTaken(seg: nat, total: u32, x: St)
    requires seg <= total
    ensures var o := ReadSegments(seg, total, x);
            o.sig.Fine? ==>
              && |o.st.path| == |x.path| + total - seg && o.st.path[..|x.path|] == x.path
              && SegmentsFit(o.st.path[|x.path|..])
              && x.rest == PutSegments(o.st.path[|x.path|..], o.st.rest)
    decreases total - seg
  {
    hide ReadSegment;
    var o := ReadSegments(seg, total, x);
    if seg == total {
      assert x.path[|x.path|..] == [];
    } else if o.sig.Fine? {
      SegmentTaken(seg, total, x);
      var y := ReadSegment(seg, total, x).st;
      SegmentsTaken(seg + 1, total, y);
      OneMoreSegment(x, y, o.st);
    }
  }

  /** One segment in front of those that were read behind it. */
  lemma OneMoreSegment(x: St, y: St, z: St)
    requires |x.rest| >= 2 && x.rest[1] <= |x.rest| - 2
    requires y.rest == x.rest[2..][x.rest[1]..] && y.path == x.path + [Segment(x.rest[0], x.rest[2..][..x.rest[1]])]
    requires |y.path| <= |z.path| < |x.path| + 0x1_0000_0000 && z.path[..|y.path|] == y.path
    requires SegmentsFit(z.path[|y.path|..]) && y.rest == PutSegments(z.path[|y.path|..], z.rest)
    ensures z.path[..|x.path|] == x.path && SegmentsFit(z.path[|x.path|..])
    ensures x.rest == PutSegments(z.path[|x.path|..], z.rest)
  {
    hide SegmentsFit;
    var s, more := Segment(x.rest[0], x.rest[2..][..x.rest[1]]), z.path[|y.path|..];
    PathInThree(x.path, s, z.path);
    FitWith(s, more);
    assert x.rest == [x.rest[0]] + ([x.rest[1]] + (s.ases + y.rest));
    assert PutList(s.ases, y.rest) == [x.rest[1]] + (s.ases + y.rest);
    assert ([s] + more)[1..] == more;
  }

  lemma PathInThree(path: AsPath, s: Segment, whole: AsPath)
    requires |whole| > |path| && whole[..|path| + 1] == path + [s]
    ensures whole[..|path|] == path && whole[|path|..] == [s] + whole[|path| + 1..]
  {
    var k := |path|;
    assert whole[k] == whole[..k + 1][k] && whole[..k] == whole[..k + 1][..k];
  }

  lemma FitWith(s: Segment, more: AsPath)
    requires SegmentsFit(more) && |s.ases| < 0x1_0000_0000 && 1 + |more| < 0x1_0000_0000
    ensures SegmentsFit([s] + more)
  {
  }

  /** A path that is read fine is the one that its words encode. */
  lemma PathTaken(x: St)
    ensures var o := Reader.ReadPath(x);
            o.sig.Fine? ==> SegmentsFit(o.st.path) && x.rest == PutPath(o.st.path, o.st.rest)
  {
    hide ReadSegments, PutSegments, SegmentsFit;
    if |x.rest| > 0 {
      var y := Line(PathPiece(PathStart), ClearEnds(x.(rest := x.rest[1..])));
      SegmentsTaken(0, x.rest[0], y);
      var o := ReadSegments(0, x.rest[0], y);
      assert y.path == [] && o.st.path[0..] == o.st.path;
      NoSegments(x.rest[1..]);
      assert x.rest == [x.rest[0]] + x.rest[1..];
    }
  }

  lemma NoSegments(t: seq<u32>)
    ensures SegmentsFit([]) && PutSegments([], t) == t
  {
  }

  /** So all that it leaves is a function of those words: endpoints, path and line. */
  lemma PathDetermined(x: St)
    ensures var o := Reader.ReadPath(x);
            o.sig.Fine? ==>
              o.st == St(o.st.rest, RoundTrip.Ends(x.f, FirstAs(o.st.path), LastAs(o.st.path)), o.st.path,
                         x.log + PathLines(o.st.path), x.work + RoundTrip.PathWork(o.st.path))
  {
    hide Reader.ReadPath, PutPath, SegmentsFit, PathLines, FirstAs, LastAs;
    PathTaken(x);
    var o := Reader.ReadPath(x);
    if o.sig.Fine? {
      RoundTrip.PathAt(o.st.path, o.st.rest, x);
      WithOwnWords(x, PutPath(o.st.path, o.st.rest));
    }
  }

  lemma WithOwnWords(x: St, t: seq<u32>)
    requires x.rest == t
    ensures RoundTrip.WithRest(t, x) == x
  {
  }

  // The line.

  /** The characters that the path pieces of a trace put out. */
  function Shown(es: seq<Event>): string {
    if es == [] then "" else (if es[0].PathPiece? then Render(es[0].token) else "") + Shown(es[1..])
  }

  const LEADER: string := "dst_as_path "

  /** The path that a printed line tells. */
  function PathOfLine(line: string): Parsed<AsPath> {
    if |line| <= |LEADER| then Failed else PathText.ReadPath(line[|LEADER|..|line| - 1])
  }

  lemma {:induction false} ShownPieces(ts: seq<PathToken>)
    ensures Shown(Pieces(ts)) == Text(ts)
  {
    if ts == [] {
    } else {
      assert Pieces(ts)[1..] == Pieces(ts[1..]);
      ShownPieces(ts[1..]);
    }
  }

  lemma {:induction false} ShownJoin(a: seq<Event>, b: seq<Event>)
    ensures Shown(a + b) == Shown(a) + Shown(b)
  {
    if a == [] {
      assert a + b == b;
    } else {
      assert (a + b)[1..] == a[1..] + b;
      ShownJoin(a[1..], b);
    }
  }

  lemma LineShown(path: AsPath)
    requires path != [] && NoEmptySegment(path)
    ensures Shown(PathLines(path)) == LEADER + PrintedPath(path) + "\n"
  {
    hide SegmentsLines, PathTokens, Pieces, Text, NoEmptySegment;
    LinesAreTokens(path, 0);
    assert path[0..] == path;
    var body := SegmentsLines(path, 0);
    assert body == Pieces(PathTokens(path));
    ShownPieces(PathTokens(path));
    ShownJoin([PathPiece(PathStart)] + body, [PathPiece(PathEnd)]);
    ShownJoin([PathPiece(PathStart)], body);
    OneShown(PathPiece(PathStart));
    OneShown(PathPiece(PathEnd));
  }

  lemma OneShown(e: Event)
    ensures Shown([e]) == if e.PathPiece? then Render(e.token) else ""
  {
    assert Shown([e][1..]) == "";
  }

  /** The line that the reader prints for a path tells the path that it delivers. */
  lemma PrintedLineTellsPath(x: St)
    requires Reader.ReadPath(x).sig.Fine?
    requires Printable(Reader.ReadPath(x).st.path) && Reader.ReadPath(x).st.path != []
    ensures var y := Reader.ReadPath(x).st;
            |x.log| <= |y.log| && PathOfLine(Shown(y.log[|x.log|..])) == Parsed(y.path, [])
  {
    hide Reader.ReadPath, PathLines, PrintedPath, PathText.ReadPath;
    PathDetermined(x);
    var y := Reader.ReadPath(x).st;
    assert y.log[|x.log|..] == PathLines(y.path);
    LineShown(y.path);
    PrintedPathReadsBack(y.path);
    var line := LEADER + PrintedPath(y.path) + "\n";
    assert line[|LEADER|..|line| - 1] == PrintedPath(y.path);
  }
}
