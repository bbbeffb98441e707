/** Decoding what an agent encoded gives back its values, in order, and ends at
    the end of the datagram. */
module RoundTrip {
  import opened Xdr
  import opened SampleState
  import opened Reader
  import opened Records
  import opened FlowDecode
  import opened Formats
  import opened Encoding

  /** The state x in front of the words t. */
  function WithRest(t: seq<u32>, x: St): (y: St)
    ensures y.f == x.f && y.path == x.path
  {
    x.(rest := t)
  }

  // The primitives on encoded items.

  lemma GetsAt()
    ensures forall v, t, x {:trigger Get(1, WithRest(Put(v, t), x))} ::
              Get(1, WithRest(Put(v, t), x)) == Got([v], WithRest(t, x))
    ensures forall ws, t, x {:trigger Get(|ws|, WithRest(PutAll(ws, t), x))} ::
              Get(|ws|, WithRest(PutAll(ws, t), x)) == Got(ws, WithRest(t, x))
  {
    forall v, t, x
      ensures Get(1, WithRest(Put(v, t), x)) == Got([v], WithRest(t, x))
    {
      assert Put(v, t)[..1] == [v];
    }
  }

  lemma StoresAt()
    ensures forall d, v, t, x {:trigger Store(d, v, WithRest(t, x))} ::
              Store(d, v, WithRest(t, x)) == WithRest(t, Store(d, v, x))
    ensures forall a, v, t, x {:trigger StoreAddr(a, v, WithRest(t, x))} ::
              StoreAddr(a, v, WithRest(t, x)) == WithRest(t, StoreAddr(a, v, x))
    ensures forall s, v, t, x {:trigger StoreStr(s, v, WithRest(t, x))} ::
              StoreStr(s, v, WithRest(t, x)) == WithRest(t, StoreStr(s, v, x))
    ensures forall l, v, t, x {:trigger StoreList(l, v, WithRest(t, x))} ::
              StoreList(l, v, WithRest(t, x)) == WithRest(t, StoreList(l, v, x))
    ensures forall p, t, x {:trigger SetPath(p, WithRest(t, x))} ::
              SetPath(p, WithRest(t, x)) == WithRest(t, SetPath(p, x))
    ensures forall g, t, x {:trigger Mark(g, WithRest(t, x))} :: Mark(g, WithRest(t, x)) == WithRest(t, Mark(g, x))
    ensures forall t, x {:trigger Count(WithRest(t, x))} :: Count(WithRest(t, x)) == WithRest(t, Count(x))
    ensures forall e, t, x {:trigger Line(e, WithRest(t, x))} :: Line(e, WithRest(t, x)) == WithRest(t, Line(e, x))
    ensures forall es, t, x {:trigger Lines(es, WithRest(t, x))} ::
              Lines(es, WithRest(t, x)) == WithRest(t, Lines(es, x))
    ensures forall d, t, x {:trigger Show(d, WithRest(t, x))} :: Show(d, WithRest(t, x)) == WithRest(t, Show(d, x))
    ensures forall a, t, x {:trigger ShowAddr(a, WithRest(t, x))} ::
              ShowAddr(a, WithRest(t, x)) == WithRest(t, ShowAddr(a, x))
    ensures forall s, t, x {:trigger ShowStr(s, WithRest(t, x))} ::
              ShowStr(s, WithRest(t, x)) == WithRest(t, ShowStr(s, x))
  {
  }

  lemma ReadsAt()
    ensures forall d, v, t, x {:trigger Read(d, WithRest(Put(v, t), x))} ::
              Read(d, WithRest(Put(v, t), x)) == Out(Fine, WithRest(t, Store(d, v, x)))
  {
    hide Get, WithRest, Store, Put;
    GetsAt();
    StoresAt();
  }

  lemma ReadAddrAt(slot: AddrSlot, a: Address, t: seq<u32>, x: St)
    requires AddressOk(a)
    ensures ReadAddr(slot, WithRest(PutAddr(a, t), x)) == Out(Fine, WithRest(t, StoreAddr(slot, a, x)))
  {
    hide Get, WithRest, Put, PutAll, Pack, Bytes;
    GetsAt();
    StoresAt();
    assert Bytes(Pack(a.bytes)) == a.bytes by {
      BytesOfPack(a.bytes);
    }
    var y := x.f.addr[slot := Addr(x.f, slot).(kind := a.kind)];
    assert y[slot := a] == x.f.addr[slot := a];
  }

  lemma ReadStrAt(slot: StrSlot, room: BufLen, s: seq<byte>, t: seq<u32>, x: St)
    requires |s| < 0x1_0000_0000
    ensures ReadStr(slot, room, WithRest(PutStr(s, t), x))
         == Out(Fine, WithRest(t, Store(LenSlot(slot), |s|, StoreStr(slot, Prefix(s, room - 1), x))))
  {
    BytesOfPack(s);
    KeptPrefix(s, Bytes(Pack(s)), room);
    hide Kept, Prefix, Get, WithRest, Store, StoreStr, Put, PutAll, Pack, Bytes;
    GetsAt();
    StoresAt();
  }

  /** What fits a buffer with a final zero are the first bytes, one less than the buffer has. */
  lemma KeptPrefix(s: seq<byte>, padded: seq<byte>, room: BufLen)
    requires |s| <= |padded| && padded[..|s|] == s
    ensures padded[..Kept(|s|, room)] == Prefix(s, room - 1)
  {
    assert Prefix(s, room - 1) == s[..Kept(|s|, room)];
  }

  /** The state after a record: its fields, its path, its lines, its iterations. */
  function After(r: Record, x: St): St
    requires RecordOk(r)
  {
    St(x.rest, RecordFields(r, x.f), if r.GatewayRec? then r.path else x.path, x.log + RecordLines(r),
       x.work + if r.GatewayRec? then PathWork(r.path) else 0)
  }

  function PathWork(path: AsPath): nat {
    if path == [] then 0 else 1 + |path[0].ases| + PathWork(path[1..])
  }

  // Each record reader on an encoded body, as the steps it takes; and what the
  // steps come to.

  function SwitchSteps(r: Record, x: St): St
    requires r.SwitchRec?
  {
    var y := Store(InPriority, r.inPriority, Store(InVlan, r.inVlan, Line(Title(SwitchRecord), x)));
    var z := Mark(HasSwitch, Store(OutPriority, r.outPriority, Store(OutVlan, r.outVlan, y)));
    Show(OutPriority, Show(OutVlan, Show(InPriority, Show(InVlan, z))))
  }

  lemma SwitchAt(r: Record, t: seq<u32>, x: St)
    requires r.SwitchRec?
    ensures Switch(WithRest(PutBody(r, t), x)) == Out(Fine, WithRest(t, SwitchSteps(r, x)))
  {
    hide Read, WithRest, Store, Put, Line, Show, Mark;
    ReadsAt();
    StoresAt();
  }

  lemma SwitchAfter(r: Record, x: St)
    requires r.SwitchRec?
    ensures SwitchSteps(r, x) == After(r, x)
  {
    assert SwitchSteps(r, x).log == x.log + RecordLines(r);
  }

  function RouterSteps(r: Record, x: St): St
    requires r.RouterRec?
  {
    var y := StoreAddr(NextHop, r.nextHop, Line(Title(RouterRecord), x));
    var z := Mark(HasRouter, Store(DstMask, r.dstMask, Store(SrcMask, r.srcMask, y)));
    Show(DstMask, Show(SrcMask, ShowAddr(NextHop, z)))
  }

  lemma RouterAt(r: Record, t: seq<u32>, x: St)
    requires r.RouterRec? && RecordOk(r)
    ensures Router(WithRest(PutBody(r, t), x)) == Out(Fine, WithRest(t, RouterSteps(r, x)))
  {
    hide Read, ReadAddr, WithRest, Store, StoreAddr, Put, PutAddr, Line, Show, ShowAddr, Mark;
    ReadAddrAt(NextHop, r.nextHop, Put(r.srcMask, Put(r.dstMask, t)), Line(Title(RouterRecord), x));
    ReadsAt();
    StoresAt();
  }

  lemma RouterAfter(r: Record, x: St)
    requires r.RouterRec? && RecordOk(r)
    ensures RouterSteps(r, x) == After(r, x)
  {
    assert RouterSteps(r, x).log == x.log + RecordLines(r);
  }

  function UserSource(r: Record, x: St): St
    requires r.UserRec? && RecordOk(r)
  {
    var y := Show(SrcUserCharset, Store(SrcUserCharset, r.srcCharset, Line(Title(UserRecord), x)));
    Store(SrcUserLen, |r.src|, StoreStr(SrcUser, Prefix(r.src, 199), y))
  }

  function UserSteps(r: Record, x: St): St
    requires r.UserRec? && RecordOk(r)
  {
    var y := Show(DstUserCharset, Store(DstUserCharset, r.dstCharset, UserSource(r, x)));
    var z := Store(DstUserLen, |r.dst|, StoreStr(DstUser, Prefix(r.dst, 199), y));
    ShowStr(DstUser, ShowStr(SrcUser, Mark(HasUser, z)))
  }

  lemma UserAt(r: Record, t: seq<u32>, x: St)
    requires r.UserRec? && RecordOk(r) && Version(x) == 5
    ensures User(WithRest(PutBody(r, t), x)) == Out(Fine, WithRest(t, UserSteps(r, x)))
  {
    var y := Show(SrcUserCharset, Store(SrcUserCharset, r.srcCharset, Line(Title(UserRecord), x)));
    var z := Show(DstUserCharset, Store(DstUserCharset, r.dstCharset, UserSource(r, x)));
    assert Version(UserSource(r, x)) == 5;
    hide Read, ReadStr, WithRest, Store, StoreStr, Put, PutStr, Line, Show, ShowStr, Mark;
    ReadsAt();
    StoresAt();
    ReadStrAt(SrcUser, USER_LEN, r.src, Put(r.dstCharset, PutStr(r.dst, t)), y);
    ReadStrAt(DstUser, USER_LEN, r.dst, t, z);
  }

  lemma UserAfter(r: Record, x: St)
    requires r.UserRec? && RecordOk(r)
    ensures UserSteps(r, x) == After(r, x)
  {
    assert UserSteps(r, x).log == x.log + RecordLines(r);
  }

  function UrlSource(r: Record, x: St): St
    requires r.UrlRec? && RecordOk(r)
  {
    var y := Show(UrlDirection, Store(UrlDirection, r.direction, Line(Title(UrlRecord), x)));
    ShowStr(Url, Store(UrlLen, |r.url|, StoreStr(Url, Prefix(r.url, 199), y)))
  }

  function UrlSteps(r: Record, x: St): St
    requires r.UrlRec? && RecordOk(r)
  {
    Mark(HasUrl, ShowStr(Host, Store(HostLen, |r.host|, StoreStr(Host, Prefix(r.host, 199), UrlSource(r, x)))))
  }

  lemma UrlAt(r: Record, t: seq<u32>, x: St)
    requires r.UrlRec? && RecordOk(r) && Version(x) == 5
    ensures UrlOf(WithRest(PutBody(r, t), x)) == Out(Fine, WithRest(t, UrlSteps(r, x)))
  {
    hide Read, ReadStr, WithRest, Store, StoreStr, Put, PutStr, Line, Show, ShowStr, Mark, Version;
    var y := Show(UrlDirection, Store(UrlDirection, r.direction, Line(Title(UrlRecord), x)));
    UrlVersion(r, x);
    AtVersion(t, UrlSource(r, x));
    AtVersion(PutStr(r.host, t), UrlSource(r, x));
    ReadsAt();
    StoresAt();
    ReadStrAt(Url, URL_LEN, r.url, PutStr(r.host, t), y);
    ReadStrAt(Host, HOST_LEN, r.host, t, UrlSource(r, x));
  }

  lemma UrlVersion(r: Record, x: St)
    requires r.UrlRec? && RecordOk(r)
    ensures Version(UrlSource(r, x)) == Version(x)
  {
  }

  lemma AtVersion(t: seq<u32>, x: St)
    ensures Version(WithRest(t, x)) == Version(x)
  {
  }

  lemma UrlAfter(r: Record, x: St)
    requires r.UrlRec? && RecordOk(r)
    ensures UrlSteps(r, x) == After(r, x)
  {
    assert UrlSteps(r, x).log == x.log + RecordLines(r);
  }

  function StackLine(name: StackName, ws: seq<u32>, x: St): St {
    if ws == [] then x else Line(Labels(name, ws), x)
  }

  lemma ReadStackAt(name: StackName, ws: seq<u32>, t: seq<u32>, x: St)
    requires |ws| < WRAPS
    ensures ReadStack(name, WithRest(PutList(ws, t), x)) == Out(Fine, WithRest(t, StackLine(name, ws, x)))
  {
    hide Get, WithRest, Put, PutAll, Line;
    GetsAt();
    StoresAt();
  }

  function MplsSteps(r: Record, x: St): St
    requires r.MplsRec?
  {
    var y := ShowAddr(MplsNextHop, StoreAddr(MplsNextHop, r.mplsNextHop, Line(Title(MplsRecord), x)));
    Mark(HasMpls, StackLine(MplsOut, r.outStack, StackLine(MplsIn, r.inStack, y)))
  }

  lemma MplsAt(r: Record, t: seq<u32>, x: St)
    requires r.MplsRec? && RecordOk(r)
    ensures Mpls(WithRest(PutBody(r, t), x)) == Out(Fine, WithRest(t, MplsSteps(r, x)))
  {
    hide ReadAddr, ReadStack, WithRest, StoreAddr, PutAddr, PutList, Line, StackLine, ShowAddr, Mark;
    StoresAt();
    var x0 := Line(Title(MplsRecord), x);
    var x1 := ShowAddr(MplsNextHop, StoreAddr(MplsNextHop, r.mplsNextHop, x0));
    ReadAddrAt(MplsNextHop, r.mplsNextHop, PutList(r.inStack, PutList(r.outStack, t)), x0);
    ReadStackAt(MplsIn, r.inStack, PutList(r.outStack, t), x1);
    ReadStackAt(MplsOut, r.outStack, t, StackLine(MplsIn, r.inStack, x1));
  }

  lemma MplsAfter(r: Record, x: St)
    requires r.MplsRec? && RecordOk(r)
    ensures MplsSteps(r, x) == After(r, x)
  {
    assert MplsSteps(r, x).log == x.log + RecordLines(r);
  }

  function NatSteps(r: Record, x: St): St
    requires r.NatRec?
  {
    var y := ShowAddr(NatSrc, StoreAddr(NatSrc, r.natSrc, Line(Title(NatRecord), x)));
    Mark(HasNat, ShowAddr(NatDst, StoreAddr(NatDst, r.natDst, y)))
  }

  lemma NatAt(r: Record, t: seq<u32>, x: St)
    requires r.NatRec? && RecordOk(r)
    ensures Nat(WithRest(PutBody(r, t), x)) == Out(Fine, WithRest(t, NatSteps(r, x)))
  {
    hide ReadAddr, WithRest, StoreAddr, PutAddr, Line, ShowAddr, Mark;
    StoresAt();
    var x0 := Line(Title(NatRecord), x);
    ReadAddrAt(NatSrc, r.natSrc, PutAddr(r.natDst, t), x0);
    ReadAddrAt(NatDst, r.natDst, t, ShowAddr(NatSrc, StoreAddr(NatSrc, r.natSrc, x0)));
  }

  lemma NatAfter(r: Record, x: St)
    requires r.NatRec? && RecordOk(r)
    ensures NatSteps(r, x) == After(r, x)
  {
    assert NatSteps(r, x).log == x.log + RecordLines(r);
  }

  lemma OtherAt(r: Record, t: seq<u32>, x: St)
    requires r.OtherRec? && RecordOk(r)
    ensures SkipRecord(false, r.tag, |r.body|, WithRest(PutBody(r, t), x)) == Out(Fine, WithRest(t, After(r, x)))
  {
    hide Get, WithRest, PutAll, Pack;
    GetsAt();
    StoresAt();
  }

  // The AS path.

  /** The fields g with the endpoints p and a. */
  function Ends(g: Fields, p: u32, a: u32): Fields {
    g.(num := g.num[DstPeerAs := p][DstAs := a])
  }

  lemma EndsStored(g: Fields, p: u32, a: u32, n: u32)
    ensures SetNum(Ends(g, p, a), DstPeerAs, n) == Ends(g, n, a)
    ensures SetNum(Ends(g, p, a), DstAs, n) == Ends(g, p, n)
  {
    assert g.num[DstPeerAs := p][DstAs := a][DstPeerAs := n] == g.num[DstPeerAs := n][DstAs := a];
    assert g.num[DstPeerAs := p][DstAs := a][DstAs := n] == g.num[DstPeerAs := p][DstAs := n];
  }

  function Peer(first: bool, i: nat, ases: seq<u32>, p: u32): u32 {
    if first && i == 0 && |ases| > 0 then ases[0] else p
  }

  function Last(last: bool, i: nat, ases: seq<u32>, a: u32): u32 {
    if last && i < |ases| then ases[|ases| - 1] else a
  }

  /** One AS number leaves the endpoints and the path as they are so far. */
  lemma AsNumberAfter(i: nat, ases: seq<u32>, first: bool, last: bool, kind: u32, x: St,
                      before: AsPath, g: Fields, p: u32, a: u32)
    requires i < |ases| < 0x1_0000_0000
    requires x.f == Ends(g, p, a) && x.path == before + [Segment(kind, ases[..i])]
    ensures TakeAsNumber(i, |ases|, first, last, kind, ases[i], x)
         == St(x.rest, Ends(g, Peer(first, i, ases, p), if last && i + 1 == |ases| then ases[i] else a),
               before + [Segment(kind, ases[..i + 1])], x.log + AsPieces(i, first, kind, ases[i]), x.work + 1)
  {
    EndsStored(g, p, a, ases[i]);
    EndsStored(g, Peer(first, i, ases, p), a, ases[i]);
    assert ases[..i] + [ases[i]] == ases[..i + 1];
    assert ExtendPath(x.path, ases[i]) == before + [Segment(kind, ases[..i + 1])];
  }

  lemma AsNumberAt(i: nat, len: u32, first: bool, last: bool, kind: u32, n: u32, t: seq<u32>, x: St)
    ensures TakeAsNumber(i, len, first, last, kind, n, WithRest(t, x))
         == WithRest(t, TakeAsNumber(i, len, first, last, kind, n, x))
  {
    hide WithRest, Store, SetPath, Lines, Count;
    StoresAt();
  }

  lemma {:induction false} AsesAt(i: nat, ases: seq<u32>, first: bool, last: bool, kind: u32, t: seq<u32>, x: St,
                                  before: AsPath, g: Fields, p: u32, a: u32)
    requires i <= |ases| < 0x1_0000_0000
    requires x.f == Ends(g, p, a) && x.path == before + [Segment(kind, ases[..i])]
    ensures ReadAsNumbers(i, |ases|, first, last, kind, WithRest(PutAll(ases[i..], t), x))
         == Out(Fine, St(t, Ends(g, Peer(first, i, ases, p), Last(last, i, ases, a)), before + [Segment(kind, ases)],
                         x.log + AsLines(ases, i, first, kind), x.work + |ases| - i))
    decreases |ases| - i
  {
    hide TakeAsNumber, Get, WithRest, Ends, Put, PutAll, AsPieces;
    if i == |ases| {
      assert ases[..i] == ases;
      NothingLeft(t, x);
    } else {
      var rest := PutAll(ases[i + 1..], t);
      var y := TakeAsNumber(i, |ases|, first, last, kind, ases[i], x);
      AsNumberAfter(i, ases, first, last, kind, x, before, g, p, a);
      AsNumberAt(i, |ases|, first, last, kind, ases[i], rest, x);
      AsesAt(i + 1, ases, first, last, kind, t, y, before, g,
             Peer(first, i, ases, p), if last && i + 1 == |ases| then ases[i] else a);
      AsLinesStep(ases, i, first, kind, x.log);
      PutAllStep(ases, i, t);
      GetsAt();
    }
  }

  lemma NothingLeft(t: seq<u32>, x: St)
    ensures WithRest(PutAll([], t), x) == St(t, x.f, x.path, x.log + [], x.work)
  {
    assert PutAll([], t) == t && x.log + [] == x.log;
  }

  lemma PutAllStep(ws: seq<u32>, i: nat, t: seq<u32>)
    requires i < |ws|
    ensures PutAll(ws[i..], t) == Put(ws[i], PutAll(ws[i + 1..], t))
  {
  }

  lemma AsLinesStep(ases: seq<u32>, i: nat, first: bool, kind: u32, log: seq<Event>)
    requires i < |ases|
    ensures log + AsPieces(i, first, kind, ases[i]) + AsLines(ases, i + 1, first, kind)
         == log + AsLines(ases, i, first, kind)
  {
    assert AsLines(ases, i, first, kind) == AsPieces(i, first, kind, ases[i]) + AsLines(ases, i + 1, first, kind);
  }

  /** The endpoints once k segments of a path have been read. */
  function PeerAfter(path: AsPath, k: nat): u32 {
    if k == 0 then 0 else FirstAs(path)
  }

  function LastAfter(path: AsPath, k: nat): u32 {
    if k < |path| then 0 else LastAs(path)
  }

  lemma SegmentAt(k: nat, path: AsPath, t: seq<u32>, x: St, g: Fields)
    requires SegmentsFit(path) && k < |path| && path[k] in path
    requires x.f == Ends(g, PeerAfter(path, k), 0) && x.path == path[..k]
    ensures ReadSegment(k, |path|, WithRest(Put(path[k].kind, PutList(path[k].ases, t)), x))
         == Out(Fine, St(t, Ends(g, PeerAfter(path, k + 1), LastAfter(path, k + 1)), path[..k + 1],
                         x.log + SegmentLines(path[k], k == 0), x.work + |path[k].ases| + 1))
  {
    hide Get, WithRest, SetPath, Ends, Put, PutAll, ReadAsNumbers;
    GetsAt();
    StoresAt();
    var s := path[k];
    var y := SetPath(path[..k] + [Segment(s.kind, [])], x);
    OpenSegment(k, path, x);
    assert s.ases[..0] == [] && s.ases[0..] == s.ases;
    AsesAt(0, s.ases, k == 0, k + 1 == |path|, s.kind, t, y, path[..k], g, PeerAfter(path, k), 0);
    assert path[..k] + [Segment(s.kind, s.ases)] == path[..k + 1];
    SegmentLinesEnd(s, k == 0, x.log);
  }

  lemma OpenSegment(k: nat, path: AsPath, x: St)
    requires k < |path|
    ensures SetPath(path[..k] + [Segment(path[k].kind, [])], x)
         == x.(path := path[..k] + [Segment(path[k].kind, [])])
  {
  }

  lemma SegmentLinesEnd(s: Segment, first: bool, log: seq<Event>)
    ensures log + AsLines(s.ases, 0, first, s.kind) + (if s.kind == AS_SET then [PathPiece(Close)] else [])
         == log + SegmentLines(s, first)
  {
  }

  lemma {:induction false} SegmentsAt(k: nat, path: AsPath, t: seq<u32>, x: St, g: Fields)
    requires SegmentsFit(path) && k <= |path| && SegmentsFit(path[k..])
    requires x.f == Ends(g, PeerAfter(path, k), LastAfter(path, k)) && x.path == path[..k]
    ensures ReadSegments(k, |path|, WithRest(PutSegments(path[k..], t), x))
         == Out(Fine, St(t, Ends(g, PeerAfter(path, |path|), LastAs(path)), path,
                         x.log + SegmentsLines(path, k), x.work + PathWork(path[k..])))
    decreases |path| - k
  {
    hide ReadSegment, WithRest, Put, PutList, Ends, SegmentLines, FirstAs, LastAs;
    if k == |path| {
      assert path[..k] == path;
      assert x.log + [] == x.log;
      WithRestParts(t, x);
    } else {
      assert path[k..][0] == path[k] && path[k..][1..] == path[k + 1..];
      assert SegmentsFit(path[k + 1..]) by {
        assert forall s :: s in path[k + 1..] ==> s in path;
      }
      var rest := PutSegments(path[k + 1..], t);
      SegmentAt(k, path, rest, x, g);
      var y := St(rest, Ends(g, PeerAfter(path, k + 1), LastAfter(path, k + 1)), path[..k + 1],
                  x.log + SegmentLines(path[k], k == 0), x.work + |path[k].ases| + 1);
      WithOwnRest(rest, y);
      SegmentsAt(k + 1, path, t, y, g);
      SegmentsLinesStep(path, k, x.log);
    }
  }

  lemma WithRestParts(t: seq<u32>, x: St)
    ensures WithRest(t, x) == St(t, x.f, x.path, x.log, x.work)
  {
  }

  lemma WithOwnRest(t: seq<u32>, y: St)
    requires y.rest == t
    ensures WithRest(t, y) == y
  {
  }

  lemma SegmentsLinesStep(path: AsPath, k: nat, log: seq<Event>)
    requires k < |path|
    ensures log + SegmentLines(path[k], k == 0) + SegmentsLines(path, k + 1) == log + SegmentsLines(path, k)
  {
  }

  lemma PathAt(path: AsPath, t: seq<u32>, x: St)
    requires SegmentsFit(path)
    ensures ReadPath(WithRest(PutPath(path, t), x))
         == Out(Fine, St(t, Ends(x.f, FirstAs(path), LastAs(path)), path, x.log + PathLines(path),
                         x.work + PathWork(path)))
  {
    hide Get, WithRest, Put, ReadSegments, Ends;
    GetsAt();
    StoresAt();
    ClearedEnds(x);
    ClearEndsAt(PutSegments(path, t), x);
    if path == [] {
      assert x.log + [] == x.log;
      WithRestParts(t, ClearEnds(x));
    } else {
      assert path[0..] == path && path[..0] == [];
      SegmentsAt(0, path, t, Line(PathPiece(PathStart), ClearEnds(x)), x.f);
      PathLinesParts(path, x.log);
    }
  }

  lemma ClearedEnds(x: St)
    ensures ClearEnds(x) == St(x.rest, Ends(x.f, 0, 0), [], x.log, x.work)
  {
    assert x.f.num[DstPeerAs := 0][DstAs := 0] == Ends(x.f, 0, 0).num;
  }

  lemma ClearEndsAt(t: seq<u32>, x: St)
    ensures ClearEnds(WithRest(t, x)) == WithRest(t, ClearEnds(x))
  {
  }

  lemma PathLinesParts(path: AsPath, log: seq<Event>)
    requires path != []
    ensures log + [PathPiece(PathStart)] + SegmentsLines(path, 0) + [PathPiece(PathEnd)] == log + PathLines(path)
  {
  }

  // The gateway record.

  function CommunitiesStored(ws: seq<u32>, x: St): St
    requires |ws| < WRAPS
  {
    var y := Store(CommunitiesLen, |ws|, x);
    if ws == [] then y else StoreList(CommunityList, ws, y)
  }

  lemma ReadCommunitiesAt(ws: seq<u32>, t: seq<u32>, x: St)
    requires |ws| < WRAPS
    ensures ReadCommunities(WithRest(PutList(ws, t), x)) == Out(Fine, WithRest(t, CommunitiesStored(ws, x)))
  {
    hide Get, WithRest, Store, StoreList, Put, PutAll;
    GetsAt();
    StoresAt();
  }

  lemma ShowCommunitiesAt(t: seq<u32>, x: St)
    ensures ShowCommunities(WithRest(t, x)) == WithRest(t, ShowCommunities(x))
    ensures ShowOwnAses(WithRest(t, x)) == WithRest(t, ShowOwnAses(x))
  {
  }

  /** The state in front of the path, behind it, and at the end. */
  function GatewayHead(r: Record, x: St): St
    requires r.GatewayRec?
  {
    var y := ShowAddr(BgpNextHop, StoreAddr(BgpNextHop, r.bgpNextHop, Line(Title(GatewayRecord), x)));
    ShowOwnAses(Store(SrcPeerAs, r.srcPeerAs, Store(SrcAs, r.srcAs, Store(MyAs, r.myAs, y))))
  }

  function PathRead(r: Record, y: St): St
    requires r.GatewayRec?
  {
    St(y.rest, Ends(y.f, FirstAs(r.path), LastAs(r.path)), r.path, y.log + PathLines(r.path), y.work + PathWork(r.path))
  }

  function GatewayTail(r: Record, y: St): St
    requires r.GatewayRec? && RecordOk(r)
  {
    var z := CommunitiesStored(r.communities, Show(DstPeerAs, Show(DstAs, y)));
    Show(Localpref, Store(Localpref, r.localpref, ShowCommunities(Mark(HasGateway, z))))
  }

  function GatewaySteps(r: Record, x: St): St
    requires r.GatewayRec? && RecordOk(r)
  {
    GatewayTail(r, PathRead(r, GatewayHead(r, x)))
  }

  lemma GatewayHeadAt(r: Record, t: seq<u32>, x: St)
    requires r.GatewayRec? && RecordOk(r) && Version(x) == 5
    ensures GatewayPath(WithRest(PutAddr(r.bgpNextHop, Put(r.myAs, Put(r.srcAs, Put(r.srcPeerAs, PutPath(r.path, t))))),
                           Line(Title(GatewayRecord), x)))
         == Out(Fine, WithRest(t, PathRead(r, GatewayHead(r, x))))
  {
    hide Read, ReadAddr, ReadPath, WithRest, Store, StoreAddr, Put, PutAddr, PutPath, Line, Show, ShowAddr,
         ShowOwnAses, Ends, FirstAs, LastAs, PathLines, PathWork;
    ReadsAt();
    StoresAt();
    var y := Line(Title(GatewayRecord), x);
    var z := ShowAddr(BgpNextHop, StoreAddr(BgpNextHop, r.bgpNextHop, y));
    var w := Store(SrcPeerAs, r.srcPeerAs, Store(SrcAs, r.srcAs, Store(MyAs, r.myAs, z)));
    ReadAddrAt(BgpNextHop, r.bgpNextHop, Put(r.myAs, Put(r.srcAs, Put(r.srcPeerAs, PutPath(r.path, t)))), y);
    ShowCommunitiesAt(PutPath(r.path, t), w);
    PathAt(r.path, t, GatewayHead(r, x));
    WithRestParts(t, PathRead(r, GatewayHead(r, x)));
  }

  lemma GatewayAt(r: Record, t: seq<u32>, x: St)
    requires r.GatewayRec? && RecordOk(r) && Version(x) == 5
    ensures Gateway(WithRest(PutBody(r, t), x)) == Out(Fine, WithRest(t, GatewaySteps(r, x)))
  {
    hide GatewayPath, Read, ReadCommunities, WithRest, Store, Put, PutAddr, PutPath, PutList, Line, Show,
         ShowCommunities, CommunitiesStored, PathRead, GatewayHead, Mark;
    ReadsAt();
    StoresAt();
    var u := PutList(r.communities, Put(r.localpref, t));
    var y := Show(DstPeerAs, Show(DstAs, PathRead(r, GatewayHead(r, x))));
    GatewayHeadAt(r, u, x);
    ReadCommunitiesAt(r.communities, Put(r.localpref, t), y);
    ShowCommunitiesAt(Put(r.localpref, t), Mark(HasGateway, CommunitiesStored(r.communities, y)));
  }

  lemma GatewayAfter(r: Record, x: St)
    requires r.GatewayRec? && RecordOk(r)
    ensures GatewaySteps(r, x) == After(r, x)
  {
    hide FirstAs, LastAs, PathLines, PathWork, GatewayHead, SegmentsFit;
    GatewayHeadAfter(r, x);
    GatewayTailAfter(r, GatewayHead(r, x));
    GatewayLog(r, x.log);
  }

  /** What the steps behind the head add to it. */
  lemma GatewayTailAfter(r: Record, h: St)
    requires r.GatewayRec? && RecordOk(r)
    ensures GatewayTail(r, PathRead(r, h))
         == St(h.rest,
               h.f.(num := h.f.num[DstPeerAs := FirstAs(r.path)][DstAs := LastAs(r.path)]
                    [CommunitiesLen := |r.communities|][Localpref := r.localpref],
                    list := if r.communities == [] then h.f.list else h.f.list[CommunityList := r.communities],
                    flags := h.f.flags + {HasGateway}),
               r.path,
               h.log + PathLines(r.path) + [ShowNum(DstAs, LastAs(r.path))] + [ShowNum(DstPeerAs, FirstAs(r.path))]
               + (if r.communities == [] then [] else [Communities(r.communities)]) + [ShowNum(Localpref, r.localpref)],
               h.work + PathWork(r.path))
  {
    hide FirstAs, LastAs, PathLines, PathWork, SegmentsFit;
    var log := h.log + PathLines(r.path) + [ShowNum(DstAs, LastAs(r.path))] + [ShowNum(DstPeerAs, FirstAs(r.path))];
    assert log + [] == log;
  }

  lemma GatewayLog(r: Record, log: seq<Event>)
    requires r.GatewayRec? && RecordOk(r)
    ensures log + [Title(GatewayRecord), ShowAddress(BgpNextHop, r.bgpNextHop), ShowNum(MyAs, r.myAs),
                   ShowNum(SrcAs, r.srcAs), ShowNum(SrcPeerAs, r.srcPeerAs)]
            + PathLines(r.path) + [ShowNum(DstAs, LastAs(r.path))] + [ShowNum(DstPeerAs, FirstAs(r.path))]
            + (if r.communities == [] then [] else [Communities(r.communities)]) + [ShowNum(Localpref, r.localpref)]
         == log + RecordLines(r)
  {
    hide FirstAs, LastAs, PathLines, SegmentsFit;
  }

  lemma GatewayHeadAfter(r: Record, x: St)
    requires r.GatewayRec? && RecordOk(r)
    ensures GatewayHead(r, x)
         == St(x.rest, x.f.(addr := x.f.addr[BgpNextHop := r.bgpNextHop],
                            num := x.f.num[MyAs := r.myAs][SrcAs := r.srcAs][SrcPeerAs := r.srcPeerAs]), x.path,
               x.log + [Title(GatewayRecord), ShowAddress(BgpNextHop, r.bgpNextHop), ShowNum(MyAs, r.myAs),
                        ShowNum(SrcAs, r.srcAs), ShowNum(SrcPeerAs, r.srcPeerAs)], x.work)
  {
    assert GatewayHead(r, x).log
        == x.log + [Title(GatewayRecord), ShowAddress(BgpNextHop, r.bgpNextHop), ShowNum(MyAs, r.myAs),
                    ShowNum(SrcAs, r.srcAs), ShowNum(SrcPeerAs, r.srcPeerAs)];
  }
}
