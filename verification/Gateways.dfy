/** The endpoints of the AS path: after any run they are those of the path that
    the latest gateway record delivered, never those of an earlier one. */
module Gateways {
  import opened Xdr
  import opened SampleState
  import opened Reader
  import opened Records
  import opened FlowDecode
  import opened Encoding
  import RoundTrip

  /** The path, the two fields that hold its endpoints, and the version. */
  ghost function EndsOf(x: St): (AsPath, u32, u32, u32) {
    (x.path, Num(x.f, DstPeerAs), Num(x.f, DstAs), Version(x))
  }

  /** The endpoint fields are those of the path. */
  ghost predicate EndsAgree(x: St) {
    Num(x.f, DstPeerAs) == FirstAs(x.path) && Num(x.f, DstAs) == LastAs(x.path)
  }

  /** A reader that ends fine leaves them in step, and the version as it was. */
  ghost predicate InStep(o: Out, x: St) {
    o.sig.Fine? ==> EndsAgree(o.st) && Version(o.st) == Version(x)
  }

  lemma SameEnds(x: St, y: St)
    requires EndsOf(x) == EndsOf(y)
    ensures EndsAgree(x) == EndsAgree(y) && Version(x) == Version(y)
  {
  }

  ghost predicate Free(d: NumSlot) {
    d != DstPeerAs && d != DstAs && d != DatagramVersion
  }

  // Readers that leave the endpoints alone.

  lemma StoresKeep()
    ensures forall d, v, x {:trigger EndsOf(Store(d, v, x))} | Free(d) :: EndsOf(Store(d, v, x)) == EndsOf(x)
    ensures forall a, v, x {:trigger EndsOf(StoreAddr(a, v, x))} :: EndsOf(StoreAddr(a, v, x)) == EndsOf(x)
    ensures forall s, v, x {:trigger EndsOf(StoreStr(s, v, x))} :: EndsOf(StoreStr(s, v, x)) == EndsOf(x)
    ensures forall l, v, x {:trigger EndsOf(StoreList(l, v, x))} :: EndsOf(StoreList(l, v, x)) == EndsOf(x)
    ensures forall g, x {:trigger EndsOf(Mark(g, x))} :: EndsOf(Mark(g, x)) == EndsOf(x)
    ensures forall x {:trigger EndsOf(Count(x))} :: EndsOf(Count(x)) == EndsOf(x)
    ensures forall e, x {:trigger EndsOf(Line(e, x))} :: EndsOf(Line(e, x)) == EndsOf(x)
    ensures forall es, x {:trigger EndsOf(Lines(es, x))} :: EndsOf(Lines(es, x)) == EndsOf(x)
    ensures forall d, x {:trigger EndsOf(Show(d, x))} :: EndsOf(Show(d, x)) == EndsOf(x)
    ensures forall a, x {:trigger EndsOf(ShowAddr(a, x))} :: EndsOf(ShowAddr(a, x)) == EndsOf(x)
    ensures forall s, x {:trigger EndsOf(ShowStr(s, x))} :: EndsOf(ShowStr(s, x)) == EndsOf(x)
    ensures forall n: nat, x {:trigger Get(n, x)} ::
              EndsOf(if Get(n, x).Got? then Get(n, x).next else Get(n, x).st) == EndsOf(x)
  {
  }

  lemma PartsKeep()
    ensures forall d, x {:trigger EndsOf(Read(d, x).st)} | Free(d) :: EndsOf(Read(d, x).st) == EndsOf(x)
    ensures forall a, x {:trigger EndsOf(ReadAddr(a, x).st)} :: EndsOf(ReadAddr(a, x).st) == EndsOf(x)
    ensures forall s, room: BufLen, x {:trigger EndsOf(ReadStr(s, room, x).st)} ::
              EndsOf(ReadStr(s, room, x).st) == EndsOf(x)
    ensures forall s, x {:trigger EndsOf(ReadStack(s, x).st)} :: EndsOf(ReadStack(s, x).st) == EndsOf(x)
    ensures forall x {:trigger EndsOf(ReadCommunities(x).st)} :: EndsOf(ReadCommunities(x).st) == EndsOf(x)
    ensures forall x {:trigger EndsOf(ReadHeaderBytes(x).st)} :: EndsOf(ReadHeaderBytes(x).st) == EndsOf(x)
    ensures forall x {:trigger EndsOf(DecodeHeader(x).st)} :: EndsOf(DecodeHeader(x).st) == EndsOf(x)
  {
    hide Get, Store, StoreAddr, StoreStr, StoreList, Mark, Line, Show, EndsOf;
    StoresKeep();
  }

  lemma FlatKeeps(p: Part, x: St)
    ensures EndsOf(ReadPart(p, x).st) == EndsOf(x)
  {
    if p == Packet {
      PacketKeeps(x);
      hide SampledPacket, EndsOf;
    } else {
      hide Get, Store, StoreStr, ReadStack, Mark, Line, Show, SampledPacket, EndsOf;
      StoresKeep();
      PartsKeep();
    }
  }

  lemma PacketKeeps(x: St)
    ensures EndsOf(SampledPacket(x).st) == EndsOf(x)
  {
    hide Read, ReadHeaderBytes, DecodeHeader, Line, Show, EndsOf;
    StoresKeep();
    PartsKeep();
  }

  lemma {:induction false} FlatsKeep(ps: seq<Part>, x: St)
    ensures EndsOf(ReadParts(ps, x).st) == EndsOf(x)
    decreases |ps|
  {
    hide ReadPart, EndsOf;
    if ps == [] {
    } else {
      FlatKeeps(ps[0], x);
      if ReadPart(ps[0], x).sig.Fine? {
        FlatsKeep(ps[1..], ReadPart(ps[0], x).st);
      }
    }
  }

  lemma SwitchKeeps(x: St)
    ensures EndsOf(Switch(x).st) == EndsOf(x)
  {
    hide Read, Line, Show, Mark, EndsOf;
    StoresKeep();
    PartsKeep();
  }

  lemma RouterKeeps(x: St)
    ensures EndsOf(Router(x).st) == EndsOf(x)
  {
    hide Read, ReadAddr, Line, Show, ShowAddr, Mark, EndsOf;
    StoresKeep();
    PartsKeep();
  }

  lemma UserKeeps(x: St)
    ensures EndsOf(User(x).st) == EndsOf(x)
  {
    hide Read, ReadStr, Line, Show, ShowStr, Mark, EndsOf;
    StoresKeep();
    PartsKeep();
  }

  lemma UrlKeeps(x: St)
    ensures EndsOf(UrlOf(x).st) == EndsOf(x)
  {
    hide Read, ReadStr, Line, Show, ShowStr, Mark, EndsOf;
    StoresKeep();
    PartsKeep();
  }

  lemma MplsKeeps(x: St)
    ensures EndsOf(Mpls(x).st) == EndsOf(x)
  {
    hide ReadAddr, ReadStack, Line, ShowAddr, Mark, EndsOf;
    StoresKeep();
    PartsKeep();
  }

  lemma NatKeeps(x: St)
    ensures EndsOf(Nat(x).st) == EndsOf(x)
  {
    hide ReadAddr, Line, ShowAddr, Mark, EndsOf;
    StoresKeep();
    PartsKeep();
  }

  // The gateway readers set them.

  /** In the middle of a path of `total` segments: `seg` segments and the first i
      numbers of one more are read, and the last number is not known yet. */
  ghost predicate MidPath(seg: nat, i: nat, x: St) {
    && |x.path| == seg + 1 && |x.path[seg].ases| == i
    && Num(x.f, DstPeerAs) == FirstAs(x.path) && Num(x.f, DstAs) == 0
  }

  lemma AsNumberEnds(seg: nat, total: u32, i: nat, len: u32, kind: u32, n: u32, x: St)
    requires MidPath(seg, i, x) && i < len && seg < total
    ensures var y := TakeAsNumber(i, len, seg == 0, seg + 1 == total, kind, n, x);
      if i + 1 == len && seg + 1 == total then |y.path| == total && EndsAgree(y) else MidPath(seg, i + 1, y)
  {
  }

  lemma {:induction false} AsNumbersEnds(seg: nat, total: u32, i: nat, len: u32, kind: u32, x: St)
    requires i <= len && seg < total
    requires if i == len && i > 0 && seg + 1 == total then |x.path| == total && EndsAgree(x) else MidPath(seg, i, x)
    ensures var o := ReadAsNumbers(i, len, seg == 0, seg + 1 == total, kind, x);
      o.sig.Fine? ==> if seg + 1 == total then |o.st.path| == total && EndsAgree(o.st) else MidPath(seg, len, o.st)
    decreases len - i
  {
    hide Get, TakeAsNumber;
    if i >= len {
    } else {
      StoresKeep();
      var g := Get(1, x);
      if g.Got? {
        AsNumberEnds(seg, total, i, len, kind, g.words[0], g.next);
        AsNumbersEnds(seg, total, i + 1, len, kind,
                      TakeAsNumber(i, len, seg == 0, seg + 1 == total, kind, g.words[0], g.next));
      }
    }
  }

  /** Between two segments. */
  ghost predicate AfterSegments(seg: nat, total: u32, x: St) {
    && |x.path| == seg && seg <= total
    && Num(x.f, DstPeerAs) == FirstAs(x.path) && Num(x.f, DstAs) == if seg == total then LastAs(x.path) else 0
  }

  lemma SegmentEnds(seg: nat, total: u32, x: St)
    requires seg < total && AfterSegments(seg, total, x)
    ensures var o := ReadSegment(seg, total, x); o.sig.Fine? ==> AfterSegments(seg + 1, total, o.st)
  {
    hide Get, Line, Count, ReadAsNumbers;
    StoresKeep();
    var g := Get(1, x);
    if g.Got? && Get(1, g.next).Got? {
      var h := Get(1, g.next);
      var z := SetPath(h.next.path + [Segment(g.words[0], [])], h.next);
      assert EndsOf(h.next) == EndsOf(x);
      AsNumbersEnds(seg, total, 0, h.words[0], g.words[0], z);
      var o := ReadAsNumbers(0, h.words[0], seg == 0, seg + 1 == total, g.words[0], z);
      assert EndsOf(CloseSegment(g.words[0], o.st)) == EndsOf(o.st);
    }
  }

  lemma {:induction false} SegmentsEnds(seg: nat, total: u32, x: St)
    requires seg <= total && AfterSegments(seg, total, x)
    ensures var o := ReadSegments(seg, total, x); o.sig.Fine? ==> AfterSegments(total, total, o.st)
    decreases total - seg
  {
    hide ReadSegment, AfterSegments;
    if seg >= total {
    } else {
      SegmentEnds(seg, total, x);
      var o := ReadSegment(seg, total, x);
      if o.sig.Fine? {
        SegmentsEnds(seg + 1, total, o.st);
      }
    }
  }

  /** Whatever was there before, a path that is read sets its own endpoints. */
  lemma PathEnds(x: St)
    ensures ReadPath(x).sig.Fine? ==> EndsAgree(ReadPath(x).st)
  {
    hide Get, Line, ReadSegments;
    StoresKeep();
    var g := Get(1, x);
    if g.Got? && g.words[0] != 0 {
      var y := Line(PathPiece(PathStart), ClearEnds(g.next));
      assert EndsOf(y) == ([], 0, 0, Version(x));
      SegmentsEnds(0, g.words[0], y);
      var o := ReadSegments(0, g.words[0], y);
      assert EndsOf(Line(PathPiece(PathEnd), o.st)) == EndsOf(o.st);
    }
  }

  lemma PathV2Ends(x: St)
    ensures ReadPathV2(x).sig.Fine? ==> EndsAgree(ReadPathV2(x).st)
  {
  }

  lemma GatewayEnds(x: St)
    ensures InStep(Gateway(x), x)
  {
    GatewayVersion(x);
    hide GatewayPath, Read, ReadCommunities, Line, Show, Mark, EndsOf, EndsAgree;
    StoresKeep();
    PartsKeep();
    var o := GatewayPath(Line(Title(GatewayRecord), x));
    GatewayPathEnds(Line(Title(GatewayRecord), x));
    if Gateway(x).sig.Fine? {
      var y := ReadCommunities(Show(DstPeerAs, Show(DstAs, o.st))).st;
      CommunitiesLineKeeps(Mark(HasGateway, y));
      SameEnds(o.st, Gateway(x).st);
    }
  }

  lemma CommunitiesLineKeeps(x: St)
    ensures EndsOf(ShowCommunities(x)) == EndsOf(x)
    ensures EndsOf(ShowOwnAses(x)) == EndsOf(x)
    ensures EndsOf(ShowPathV2(x)) == EndsOf(x)
  {
  }

  lemma GatewayPathEnds(x: St)
    ensures GatewayPath(x).sig.Fine? ==> EndsAgree(GatewayPath(x).st)
  {
    hide BgpNextHopOf, OwnAses, ReadPath, EndsAgree;
    var o := BgpNextHopOf(x);
    if o.sig.Fine? && OwnAses(o.st).sig.Fine? {
      PathEnds(ShowOwnAses(OwnAses(o.st).st));
    }
  }

  lemma GatewayV2Ends(x: St)
    ensures InStep(GatewayV2(x), x)
  {
    GatewayVersion(x);
    hide OwnAses, ReadPathV2, Line, Show, ShowOwnAses, ShowPathV2, Mark, EndsOf, EndsAgree;
    StoresKeep();
    var o := OwnAses(Line(Title(GatewayRecord), x));
    if GatewayV2(x).sig.Fine? {
      var p := ReadPathV2(o.st);
      PathV2Ends(o.st);
      CommunitiesLineKeeps(Mark(HasGateway, p.st));
      CommunitiesLineKeeps(Show(DstAsPathLen, Show(DstPeerAs, Show(DstAs, ShowOwnAses(Mark(HasGateway, p.st))))));
      SameEnds(p.st, GatewayV2(x).st);
    }
  }

  // And none of them touches the version of the datagram.

  lemma StoresKeepVersion()
    ensures forall d, v, x {:trigger Version(Store(d, v, x))} | d != DatagramVersion ::
              Version(Store(d, v, x)) == Version(x)
    ensures forall l, v, x {:trigger Version(StoreList(l, v, x))} :: Version(StoreList(l, v, x)) == Version(x)
    ensures forall p, x {:trigger Version(SetPath(p, x))} :: Version(SetPath(p, x)) == Version(x)
    ensures forall g, x {:trigger Version(Mark(g, x))} :: Version(Mark(g, x)) == Version(x)
    ensures forall x {:trigger Version(Count(x))} :: Version(Count(x)) == Version(x)
    ensures forall e, x {:trigger Version(Line(e, x))} :: Version(Line(e, x)) == Version(x)
    ensures forall es, x {:trigger Version(Lines(es, x))} :: Version(Lines(es, x)) == Version(x)
    ensures forall d, x {:trigger Version(Show(d, x))} :: Version(Show(d, x)) == Version(x)
    ensures forall a, x {:trigger Version(ShowAddr(a, x))} :: Version(ShowAddr(a, x)) == Version(x)
    ensures forall n: nat, x {:trigger Get(n, x)} ::
              Version(if Get(n, x).Got? then Get(n, x).next else Get(n, x).st) == Version(x)
  {
  }

  lemma ReadsKeepVersion()
    ensures forall d, x {:trigger Version(Read(d, x).st)} | d != DatagramVersion :: Version(Read(d, x).st) == Version(x)
    ensures forall a, x {:trigger Version(ReadAddr(a, x).st)} :: Version(ReadAddr(a, x).st) == Version(x)
    ensures forall x {:trigger Version(ReadCommunities(x).st)} :: Version(ReadCommunities(x).st) == Version(x)
    ensures forall x {:trigger Version(ReadPathV2(x).st)} :: Version(ReadPathV2(x).st) == Version(x)
    ensures forall x {:trigger Version(ShowCommunities(x))} :: Version(ShowCommunities(x)) == Version(x)
    ensures forall x {:trigger Version(ShowPathV2(x))} :: Version(ShowPathV2(x)) == Version(x)
  {
    hide Get, Store, Line, ReadAddr, ReadCommunities, ReadPathV2, Version;
    StoresKeepVersion();
    AddressesKeepVersion();
    forall x
      ensures Version(ReadCommunities(x).st) == Version(x) && Version(ReadPathV2(x).st) == Version(x)
    {
      CommunitiesVersion(x);
      PathV2Version(x);
    }
  }

  lemma CommunitiesVersion(x: St)
    ensures Version(ReadCommunities(x).st) == Version(x)
  {
    hide Get, Store, StoreList, Version;
    StoresKeepVersion();
  }

  lemma PathV2Version(x: St)
    ensures Version(ReadPathV2(x).st) == Version(x)
  {
    hide Get, Store, StoreList, SetPath, Version;
    StoresKeepVersion();
  }

  lemma AddressesKeepVersion()
    ensures forall a, x {:trigger Version(ReadAddr(a, x).st)} :: Version(ReadAddr(a, x).st) == Version(x)
  {
  }

  lemma {:induction false} AsNumbersVersion(i: nat, len: u32, first: bool, last: bool, kind: u32, x: St)
    ensures Version(ReadAsNumbers(i, len, first, last, kind, x).st) == Version(x)
    decreases len - i
  {
    hide Get, Store, SetPath, Count, Lines, Version;
    StoresKeepVersion();
    if i >= len {
    } else if Get(1, x).Got? {
      var g := Get(1, x);
      AsNumbersVersion(i + 1, len, first, last, kind, TakeAsNumber(i, len, first, last, kind, g.words[0], g.next));
    }
  }

  lemma {:induction false} SegmentsVersion(seg: nat, total: u32, x: St)
    ensures Version(ReadSegments(seg, total, x).st) == Version(x)
    decreases total - seg
  {
    hide ReadSegment, Version;
    if seg >= total {
    } else {
      SegmentVersion(seg, total, x);
      var o := ReadSegment(seg, total, x);
      if o.sig.Fine? {
        SegmentsVersion(seg + 1, total, o.st);
      }
    }
  }

  lemma SegmentVersion(seg: nat, total: u32, x: St)
    ensures Version(ReadSegment(seg, total, x).st) == Version(x)
  {
    hide Get, SetPath, Line, Count, ReadAsNumbers, Version;
    StoresKeepVersion();
    var g := Get(1, x);
    if g.Got? && Get(1, g.next).Got? {
      var h := Get(1, g.next);
      var z := SetPath(h.next.path + [Segment(g.words[0], [])], h.next);
      AsNumbersVersion(0, h.words[0], seg == 0, seg + 1 == total, g.words[0], z);
    }
  }

  lemma PathVersion(x: St)
    ensures Version(ReadPath(x).st) == Version(x)
  {
    hide Get, Store, SetPath, Line, ReadSegments, Version;
    StoresKeepVersion();
    var g := Get(1, x);
    if g.Got? {
      SegmentsVersion(0, g.words[0], Line(PathPiece(PathStart), ClearEnds(g.next)));
    }
  }

  lemma OwnAsesVersion(x: St)
    ensures Version(OwnAses(x).st) == Version(x) && Version(ShowOwnAses(x)) == Version(x)
  {
    hide Read, Show, Version;
    StoresKeepVersion();
    ReadsKeepVersion();
  }

  lemma GatewayPathVersion(x: St)
    ensures Version(GatewayPath(x).st) == Version(x)
  {
    NextHopVersion(x);
    hide BgpNextHopOf, OwnAses, ReadPath, ShowOwnAses, Version;
    var o := BgpNextHopOf(x);
    if o.sig.Fine? {
      OwnAsesVersion(o.st);
      var p := OwnAses(o.st);
      OwnAsesVersion(p.st);
      PathVersion(ShowOwnAses(p.st));
    }
  }

  lemma NextHopVersion(x: St)
    ensures Version(BgpNextHopOf(x).st) == Version(x)
  {
    hide ReadAddr, ShowAddr, Version;
    StoresKeepVersion();
    AddressesKeepVersion();
  }

  lemma GatewayVersion(x: St)
    ensures Version(Gateway(x).st) == Version(x) && Version(GatewayV2(x).st) == Version(x)
  {
    hide GatewayPath, OwnAses, ReadPathV2, Read, ReadCommunities, ShowCommunities, ShowOwnAses, ShowPathV2, Line,
         Show, Mark, Version;
    StoresKeepVersion();
    ReadsKeepVersion();
    var y := Line(Title(GatewayRecord), x);
    GatewayPathVersion(y);
    OwnAsesVersion(y);
    var o := OwnAses(y);
    if o.sig.Fine? {
      OwnAsesVersion(Mark(HasGateway, ReadPathV2(o.st).st));
    }
  }

  // Every reader keeps the endpoints in step with the path.

  lemma RecordEnds(t: u32, x: St)
    requires EndsAgree(x)
    ensures InStep(ReadRecord(t, x), x)
  {
    hide SampledPacket, Switch, Router, Gateway, User, UrlOf, Mpls, Nat, ReadParts, FlatParts, EndsOf, EndsAgree;
    var o := ReadRecord(t, x);
    match t
    case 1 => PacketKeeps(x); SameEnds(x, o.st);
    case 1001 => SwitchKeeps(x); SameEnds(x, o.st);
    case 1002 => RouterKeeps(x); SameEnds(x, o.st);
    case 1003 => GatewayEnds(x);
    case 1004 => UserKeeps(x); SameEnds(x, o.st);
    case 1005 => UrlKeeps(x); SameEnds(x, o.st);
    case 1006 => MplsKeeps(x); SameEnds(x, o.st);
    case 1007 => NatKeeps(x); SameEnds(x, o.st);
    case _ => FlatsKeep(FlatParts(t), x); SameEnds(x, o.st);
  }

  lemma SkipKeeps(inSample: bool, tag: u32, len: u32, x: St)
    ensures EndsOf(SkipRecord(inSample, tag, len, x).st) == EndsOf(x)
  {
    hide Get, Line, EndsOf;
    StoresKeep();
  }

  lemma ElementEnds(x: St)
    requires EndsAgree(x)
    ensures InStep(ReadElement(x), x)
  {
    hide Get, Line, Count, ReadRecord, SkipRecord, Known, EndsOf, EndsAgree;
    StoresKeep();
    var g := Get(1, x);
    if g.Got? && Get(1, Line(BlockTag(g.words[0]), g.next)).Got? {
      var tag, h := g.words[0], Get(1, Line(BlockTag(g.words[0]), g.next));
      SameEnds(x, h.next);
      SkipKeeps(false, tag, h.words[0], h.next);
      var y := ReadElementBody(tag, h.words[0], h.next).st;
      if Known(tag) {
        RecordEnds(tag, h.next);
      } else {
        SameEnds(h.next, y);
      }
      SameEnds(y, Count(y));
    }
  }

  lemma {:induction false} ElementsEnds(n: nat, x: St)
    requires EndsAgree(x)
    ensures InStep(ReadElements(n, x), x)
  {
    hide ReadElement, EndsAgree;
    if n == 0 {
    } else {
      ElementEnds(x);
      if ReadElement(x).sig.Fine? {
        ElementsEnds(n - 1, ReadElement(x).st);
      }
    }
  }

  lemma HeadPartsKeep()
    ensures forall expanded, x {:trigger EndsOf(ReadSourceOf(expanded, x).st)} ::
              EndsOf(ReadSourceOf(expanded, x).st) == EndsOf(x)
    ensures forall x {:trigger EndsOf(ReadSource(x).st)} :: EndsOf(ReadSource(x).st) == EndsOf(x)
    ensures forall x {:trigger EndsOf(ReadRates(x).st)} :: EndsOf(ReadRates(x).st) == EndsOf(x)
    ensures forall expanded, x {:trigger EndsOf(ReadPortsOf(expanded, x).st)} ::
              EndsOf(ReadPortsOf(expanded, x).st) == EndsOf(x)
    ensures forall x {:trigger EndsOf(ShowSource(x))} :: EndsOf(ShowSource(x)) == EndsOf(x)
    ensures forall x {:trigger EndsOf(ShowRates(x))} :: EndsOf(ShowRates(x)) == EndsOf(x)
    ensures forall input, x {:trigger EndsOf(ShowPort(input, x))} :: EndsOf(ShowPort(input, x)) == EndsOf(x)
  {
    hide Get, Read, Store, Show, Line, EndsOf;
    StoresKeep();
    PartsKeep();
  }

  lemma TopKeeps(expanded: bool, x: St)
    ensures EndsOf(ReadFlowTop(expanded, x).st) == EndsOf(x)
  {
    hide Read, ReadSourceOf, ShowSource, Show, EndsOf;
    StoresKeep();
    PartsKeep();
    HeadPartsKeep();
  }

  lemma HeadKeeps(expanded: bool, x: St)
    ensures EndsOf(ReadFlowHead(expanded, x).st) == EndsOf(x)
  {
    hide ReadFlowTop, ReadRates, ReadPortsOf, ShowRates, ShowPort, EndsOf;
    TopKeeps(expanded, x);
    HeadPartsKeep();
  }

  lemma HeadV24Keeps(x: St)
    ensures EndsOf(ReadFlowHeadV24(x).st) == EndsOf(x)
  {
    hide Read, ReadFlowTop, ReadRates, ShowRates, Show, EndsOf;
    TopKeeps(false, x);
    StoresKeep();
    PartsKeep();
    HeadPartsKeep();
  }

  lemma FlowSampleEnds(expanded: bool, x: St)
    requires EndsAgree(x)
    ensures InStep(ReadFlowSample(expanded, x), x)
  {
    hide Get, Line, ReadFlowHead, ReadElements, EndsOf, EndsAgree;
    StoresKeep();
    var g := Get(1, Line(Title(FlowSampleLine), x));
    if g.Got? {
      HeadKeeps(expanded, g.next);
      var o := ReadFlowHead(expanded, g.next);
      if o.sig.Fine? && Get(1, o.st).Got? {
        var h := Get(1, o.st);
        SameEnds(x, h.next);
        ElementsEnds(h.words[0], h.next);
      }
    }
  }

  lemma ExtendedEnds(x: St)
    requires EndsAgree(x)
    ensures InStep(ReadExtended(x), x)
  {
    hide Get, Count, Switch, Router, GatewayV2, Gateway, User, UrlOf, EndsOf, EndsAgree;
    StoresKeep();
    var g := Get(1, x);
    if g.Got? {
      SameEnds(x, g.next);
      SwitchKeeps(g.next);
      RouterKeeps(g.next);
      UserKeeps(g.next);
      UrlKeeps(g.next);
      GatewayEnds(g.next);
      GatewayV2Ends(g.next);
      var y := ReadExtendedBody(g.words[0], g.next).st;
      if g.words[0] != 3 {
        SameEnds(g.next, y);
      }
      SameEnds(y, Count(y));
    }
  }

  lemma {:induction false} ExtendedsEnds(n: nat, x: St)
    requires EndsAgree(x)
    ensures InStep(ReadExtendeds(n, x), x)
  {
    hide ReadExtended, EndsAgree;
    if n == 0 {
    } else {
      ExtendedEnds(x);
      if ReadExtended(x).sig.Fine? {
        ExtendedsEnds(n - 1, ReadExtended(x).st);
      }
    }
  }

  lemma PacketDataKeeps(x: St)
    ensures EndsOf(ReadPacketData(x).st) == EndsOf(x)
    ensures EndsOf(ClearFlags(x)) == EndsOf(x)
  {
    hide Get, Read, Line, SampledPacket, EndsOf;
    StoresKeep();
    PartsKeep();
    FlagsKeep(x);
    PacketKeeps(Read(PacketDataTag, x).st);
  }

  lemma FlagsKeep(x: St)
    ensures EndsOf(ClearFlags(x)) == EndsOf(x)
  {
  }

  lemma FlowSampleV24Ends(x: St)
    requires EndsAgree(x)
    ensures InStep(ReadFlowSampleV24(x), x)
  {
    hide Read, Line, ReadFlowHeadV24, ReadPacketData, ClearFlags, ReadExtendeds, EndsOf, EndsAgree;
    StoresKeep();
    PartsKeep();
    HeadV24Keeps(Line(Title(FlowSampleLine), x));
    var o := ReadFlowHeadV24(Line(Title(FlowSampleLine), x));
    if o.sig.Fine? && ReadPacketData(o.st).sig.Fine? {
      PacketDataKeeps(o.st);
      var p := ReadPacketData(o.st);
      FlagsKeep(p.st);
      var q := Read(NumExtended, ClearFlags(p.st));
      if q.sig.Fine? {
        SameEnds(x, q.st);
        ExtendedsEnds(Num(q.st.f, NumExtended), q.st);
      }
    }
  }

  lemma SampleBodyEnds(x: St)
    requires EndsAgree(x)
    ensures InStep(ReadSampleBody(x), x)
  {
    hide Get, ReadFlowSample, ReadFlowSampleV24, SkipRecord, EndsOf, EndsAgree;
    StoresKeep();
    FlowSampleEnds(false, x);
    FlowSampleEnds(true, x);
    FlowSampleV24Ends(x);
    var g := Get(1, x);
    if g.Got? {
      SkipKeeps(true, Num(x.f, SampleType), g.words[0], g.next);
      SameEnds(x, SkipRecord(true, Num(x.f, SampleType), g.words[0], g.next).st);
    }
  }

  lemma SampleEnds(x: St)
    requires EndsAgree(x)
    ensures InStep(ReadSample(x), x)
  {
    hide Read, Line, Count, ReadSampleBody, EndsOf, EndsAgree;
    StoresKeep();
    PartsKeep();
    var o := Read(SampleType, x);
    if o.sig.Fine? {
      var y := Line(SampleTag(Num(o.st.f, SampleType)), o.st);
      SameEnds(x, y);
      SampleBodyEnds(y);
      SameEnds(ReadSampleBody(y).st, Count(Line(EndSample, ReadSampleBody(y).st)));
    }
  }

  /** After any run of samples the endpoint fields are the first AS of the first
      segment and the last AS of the last segment of the latest gateway record, or
      zero where that segment is empty or absent. */
  lemma {:induction false} SamplesEnds(n: nat, x: St)
    requires EndsAgree(x)
    ensures InStep(ReadSamples(n, x), x)
  {
    hide ReadSample, EndsAgree;
    if n == 0 {
    } else {
      SampleEnds(x);
      if ReadSample(x).sig.Fine? {
        SamplesEnds(n - 1, ReadSample(x).st);
      }
    }
  }

  lemma VersionEnds(x: St)
    requires EndsAgree(x)
    ensures EndsAgree(Read(DatagramVersion, x).st)
  {
  }

  lemma DatagramHeadEnds(x: St)
    requires EndsAgree(x)
    ensures EndsAgree(ReadDatagramHead(x).st)
  {
    hide Read, ReadAddr, Show, EndsOf, EndsAgree;
    StoresKeep();
    PartsKeep();
    VersionEnds(x);
    SameEnds(Read(DatagramVersion, x).st, ReadDatagramHead(x).st);
  }

  lemma Samples0Ends(x: St)
    requires EndsAgree(x)
    ensures EndsAgree(Samples0(x).st)
  {
    hide Get, Line, Show, ShowAddr, ReadDatagramHead, EndsOf, EndsAgree;
    StoresKeep();
    DatagramHeadEnds(x);
    var o := ReadDatagramHead(x);
    if o.sig.Fine? {
      SameEnds(o.st, Samples0(x).st);
    }
  }

  // Versions.

  /** What both versions of the gateway record tell about AS numbers. */
  ghost function AsFields(f: Fields): seq<u32> {
    [Num(f, MyAs), Num(f, SrcAs), Num(f, SrcPeerAs), Num(f, DstPeerAs), Num(f, DstAs)]
  }

  /** The words that the three own AS numbers take. */
  function PutOwn(my: u32, src: u32, peer: u32, t: seq<u32>): seq<u32> {
    Put(my, Put(src, Put(peer, t)))
  }

  function Own(my: u32, src: u32, peer: u32, x: St): St {
    Store(SrcPeerAs, peer, Store(SrcAs, src, Store(MyAs, my, x)))
  }

  lemma OwnAsesAt(my: u32, src: u32, peer: u32, t: seq<u32>, x: St)
    ensures OwnAses(RoundTrip.WithRest(PutOwn(my, src, peer, t), x))
         == Out(Fine, RoundTrip.WithRest(t, Own(my, src, peer, x)))
  {
    hide Read, Store, Put, RoundTrip.WithRest;
    RoundTrip.ReadsAt();
    RoundTrip.StoresAt();
  }

  /** What the reader leaves of a list of AS numbers. */
  function PathV2Stored(p: seq<u32>, x: St): St
    requires |p| < WRAPS
  {
    var y := Store(DstAsPathLen, |p|, ClearEnds(x));
    if p == [] then y else
      var z := SetPath([Segment(AS_SEQUENCE, p)], StoreList(DstAsPathList, p, y));
      Store(DstAs, p[|p| - 1], Store(DstPeerAs, p[0], z))
  }

  lemma PathV2Is(p: seq<u32>, t: seq<u32>, x: St)
    requires |p| < WRAPS
    ensures ReadPathV2(RoundTrip.WithRest(PutList(p, t), x)) == Out(Fine, RoundTrip.WithRest(t, PathV2Stored(p, x)))
  {
    hide Get, Put, PutAll, RoundTrip.WithRest, Store, StoreList, SetPath, ClearEnds;
    RoundTrip.GetsAt();
    RoundTrip.StoresAt();
    ClearedAt(PutList(p, t), x);
  }

  lemma ClearedAt(t: seq<u32>, x: St)
    ensures ClearEnds(RoundTrip.WithRest(t, x)) == RoundTrip.WithRest(t, ClearEnds(x))
  {
  }

  lemma StoredFields(p: seq<u32>, x: St)
    requires |p| < WRAPS
    ensures AsFields(PathV2Stored(p, x).f)
         == AsFields(x.f)[..3] + (if p == [] then [0, 0] else [p[0], p[|p| - 1]])
  {
  }

  lemma PathV2At(p: seq<u32>, t: seq<u32>, x: St)
    requires |p| < WRAPS
    ensures ReadPathV2(RoundTrip.WithRest(PutList(p, t), x)).sig.Fine?
    ensures var y := ReadPathV2(RoundTrip.WithRest(PutList(p, t), x)).st;
      y.rest == t && AsFields(y.f) == AsFields(x.f)[..3] + (if p == [] then [0, 0] else [p[0], p[|p| - 1]])
  {
    hide ReadPathV2, PutList, PathV2Stored, AsFields;
    PathV2Is(p, t, x);
    StoredFields(p, x);
  }

  lemma RestOf(t: seq<u32>, x: St)
    ensures RoundTrip.WithRest(t, x).rest == t
  {
  }

  /** Printing and counting change no field; communities and the local preference
      are fields of their own. */
  lemma AsFieldsKept()
    ensures forall g, x {:trigger Mark(g, x)} :: AsFields(Mark(g, x).f) == AsFields(x.f)
    ensures forall v, x {:trigger Store(Localpref, v, x)} :: AsFields(Store(Localpref, v, x).f) == AsFields(x.f)
  {
  }

  lemma PrintingTakesNothing()
    ensures forall g, x {:trigger Mark(g, x)} :: Mark(g, x).rest == x.rest
    ensures forall d, x {:trigger Show(d, x)} :: Show(d, x).rest == x.rest
    ensures forall x {:trigger ShowOwnAses(x)} :: ShowOwnAses(x).rest == x.rest
    ensures forall x {:trigger ShowPathV2(x)} :: ShowPathV2(x).rest == x.rest
  {
  }

  lemma CommunitiesKeepAs(ws: seq<u32>, x: St)
    requires |ws| < WRAPS
    ensures AsFields(RoundTrip.CommunitiesStored(ws, x).f) == AsFields(x.f)
  {
  }

  /** The version 2 reader on a list of AS numbers. */
  lemma GatewayV2At(my: u32, src: u32, peer: u32, p: seq<u32>, t: seq<u32>, x: St)
    requires |p| < WRAPS
    ensures var o := GatewayV2(RoundTrip.WithRest(PutOwn(my, src, peer, PutList(p, t)), x));
      && o.sig.Fine? && o.st.rest == t
      && AsFields(o.st.f) == [my, src, peer] + (if p == [] then [0, 0] else [p[0], p[|p| - 1]])
  {
    hide OwnAses, ReadPathV2, RoundTrip.WithRest, Own, AsFields, PutOwn, PutList, Line, Mark, Show, ShowOwnAses,
         ShowPathV2;
    var y := Line(Title(GatewayRecord), x);
    OwnAsesAt(my, src, peer, PutList(p, t), y);
    PathV2At(p, t, Own(my, src, peer, y));
    OwnFields(my, src, peer, y);
    RoundTrip.StoresAt();
    AsFieldsKept();
    PrintingTakesNothing();
  }

  lemma OwnFields(my: u32, src: u32, peer: u32, x: St)
    ensures AsFields(Own(my, src, peer, x).f)[..3] == [my, src, peer]
    ensures Version(Own(my, src, peer, x)) == Version(x)
  {
  }

  lemma PathV4At(p: seq<u32>, t: seq<u32>, x: St)
    requires |p| < WRAPS
    ensures var one := [Segment(AS_SEQUENCE, p)];
      && SegmentsFit(one) && ReadPath(RoundTrip.WithRest(PutPath(one, t), x)).sig.Fine?
      && var y := ReadPath(RoundTrip.WithRest(PutPath(one, t), x)).st;
      y.rest == t && AsFields(y.f) == AsFields(x.f)[..3] + (if p == [] then [0, 0] else [p[0], p[|p| - 1]])
  {
    hide ReadPath, RoundTrip.WithRest, PutPath;
    RoundTrip.PathAt([Segment(AS_SEQUENCE, p)], t, x);
  }

  /** A version 4 record up to its path, which is one sequence. */
  lemma GatewayPathV4At(my: u32, src: u32, peer: u32, p: seq<u32>, t: seq<u32>, x: St)
    requires |p| < WRAPS && Version(x) == 4 && SegmentsFit([Segment(AS_SEQUENCE, p)])
    ensures var o := GatewayPath(RoundTrip.WithRest(PutOwn(my, src, peer, PutPath([Segment(AS_SEQUENCE, p)], t)), x));
      && o.sig.Fine? && o.st.rest == t
      && AsFields(o.st.f) == [my, src, peer] + (if p == [] then [0, 0] else [p[0], p[|p| - 1]])
  {
    var u := PutPath([Segment(AS_SEQUENCE, p)], t);
    hide OwnAses, ReadPath, RoundTrip.WithRest, Own, AsFields, PutOwn, PutPath, ShowOwnAses, SegmentsFit;
    OwnAsesAt(my, src, peer, u, x);
    OwnFields(my, src, peer, x);
    RoundTrip.ShowCommunitiesAt(u, Own(my, src, peer, x));
    PathV4At(p, t, ShowOwnAses(Own(my, src, peer, x)));
  }

  /** The version 4 reader on a record whose path is one sequence. */
  lemma GatewayV4At(my: u32, src: u32, peer: u32, p: seq<u32>, cs: seq<u32>, pref: u32, t: seq<u32>, x: St)
    requires |p| < WRAPS && |cs| < WRAPS && Version(x) == 4 && SegmentsFit([Segment(AS_SEQUENCE, p)])
    ensures var u := PutPath([Segment(AS_SEQUENCE, p)], PutList(cs, Put(pref, t)));
      && var o := Gateway(RoundTrip.WithRest(PutOwn(my, src, peer, u), x));
      && o.sig.Fine? && o.st.rest == t
      && AsFields(o.st.f) == [my, src, peer] + (if p == [] then [0, 0] else [p[0], p[|p| - 1]])
  {
    hide GatewayPath, Read, ReadCommunities, RoundTrip.WithRest, Store, AsFields, PutOwn, Put, PutPath, PutList, Line,
         Show, ShowCommunities, RoundTrip.CommunitiesStored, Mark, SegmentsFit;
    RoundTrip.ReadsAt();
    RoundTrip.StoresAt();
    AsFieldsKept();
    var y := Line(Title(GatewayRecord), x);
    var more := PutList(cs, Put(pref, t));
    GatewayPathV4At(my, src, peer, p, more, y);
    var z := GatewayPath(RoundTrip.WithRest(PutOwn(my, src, peer, PutPath([Segment(AS_SEQUENCE, p)], more)), y)).st;
    var shown := Show(DstPeerAs, Show(DstAs, z));
    PrintingTakesNothing();
    WithOwnRest(shown);
    RoundTrip.ReadCommunitiesAt(cs, Put(pref, t), shown);
    CommunitiesKeepAs(cs, shown);
    var w := Mark(HasGateway, RoundTrip.CommunitiesStored(cs, shown));
    RoundTrip.ShowCommunitiesAt(Put(pref, t), w);
    CommunitiesLineFields(w);
    RestOf(t, Show(Localpref, Store(Localpref, pref, ShowCommunities(w))));
    BehindFields();
  }

  lemma WithOwnRest(x: St)
    ensures RoundTrip.WithRest(x.rest, x) == x
  {
  }

  lemma BehindFields()
    ensures forall t, x {:trigger RoundTrip.WithRest(t, x)} :: AsFields(RoundTrip.WithRest(t, x).f) == AsFields(x.f)
  {
  }

  lemma CommunitiesLineFields(x: St)
    ensures AsFields(ShowCommunities(x).f) == AsFields(x.f)
  {
  }

  /** A list of AS numbers tells the same to a reader of version 2 and, as one
      sequence, to a reader of version 4. */
  lemma VersionsAgree(my: u32, src: u32, peer: u32, p: seq<u32>, cs: seq<u32>, pref: u32,
                      t2: seq<u32>, t4: seq<u32>, x2: St, x4: St)
    requires 4 * |p| < 0x1_0000_0000 && |cs| < WRAPS && Version(x2) == 2 && Version(x4) == 4
    ensures SegmentsFit([Segment(AS_SEQUENCE, p)])
    ensures var path := PutPath([Segment(AS_SEQUENCE, p)], PutList(cs, Put(pref, t4)));
      && var o2 := ReadExtendedBody(3, RoundTrip.WithRest(PutOwn(my, src, peer, PutList(p, t2)), x2));
      && var o4 := ReadExtendedBody(3, RoundTrip.WithRest(PutOwn(my, src, peer, path), x4));
      && o2.sig.Fine? && o4.sig.Fine? && o2.st.rest == t2 && o4.st.rest == t4
      && AsFields(o2.st.f) == AsFields(o4.st.f)
  {
    hide GatewayV2, Gateway, RoundTrip.WithRest, PutOwn, PutPath, PutList, Put, AsFields;
    GatewayV2At(my, src, peer, p, t2, x2);
    GatewayV4At(my, src, peer, p, cs, pref, t4, x4);
  }
}
