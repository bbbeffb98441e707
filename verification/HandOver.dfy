/** The readers of words hand over counter samples, and nothing else. */
module HandOver {
  import opened Xdr
  import opened SampleState
  import opened Reader
  import opened Records
  import opened FlowDecode

  /** A reader that does not hand over. */
  ghost predicate Stays(o: Out) {
    o.sig != Outside(CounterSample)
  }

  lemma ReadsStay()
    ensures forall d, x {:trigger Read(d, x)} :: Stays(Read(d, x))
    ensures forall a, x {:trigger ReadAddr(a, x)} :: Stays(ReadAddr(a, x))
    ensures forall s, room: BufLen, x {:trigger ReadStr(s, room, x)} :: Stays(ReadStr(s, room, x))
    ensures forall x {:trigger ReadCommunities(x)} :: Stays(ReadCommunities(x))
    ensures forall s, x {:trigger ReadStack(s, x)} :: Stays(ReadStack(s, x))
    ensures forall x {:trigger ReadPathV2(x)} :: Stays(ReadPathV2(x))
    ensures forall x {:trigger ReadHeaderBytes(x)} :: Stays(ReadHeaderBytes(x))
    ensures forall x {:trigger DecodeHeader(x)} :: Stays(DecodeHeader(x))
  {
    hide Store, StoreAddr, StoreStr, StoreList, Line;
  }

  lemma {:induction false} NumbersStay(i: nat, len: u32, first: bool, last: bool, kind: u32, x: St)
    ensures Stays(ReadAsNumbers(i, len, first, last, kind, x))
    decreases len - i
  {
    hide TakeAsNumber;
    if i >= len || x.rest == [] {
    } else {
      var g := Get(1, x);
      NumbersStay(i + 1, len, first, last, kind, TakeAsNumber(i, len, first, last, kind, g.words[0], g.next));
    }
  }

  lemma SegmentStays(seg: nat, total: u32, x: St)
    ensures Stays(ReadSegment(seg, total, x))
  {
    hide ReadAsNumbers, CloseSegment;
    if |x.rest| >= 2 {
      var g := Get(1, x);
      var h := Get(1, g.next);
      var z := SetPath(h.next.path + [Segment(g.words[0], [])], h.next);
      NumbersStay(0, h.words[0], seg == 0, seg + 1 == total, g.words[0], z);
    }
  }

  lemma {:induction false} SegmentsStay(seg: nat, total: u32, x: St)
    ensures Stays(ReadSegments(seg, total, x))
    decreases total - seg
  {
    hide ReadSegment;
    if seg >= total {
    } else {
      SegmentStays(seg, total, x);
      if ReadSegment(seg, total, x).sig.Fine? {
        SegmentsStay(seg + 1, total, ReadSegment(seg, total, x).st);
      }
    }
  }

  lemma PathStays(x: St)
    ensures Stays(ReadPath(x))
  {
    hide ReadSegments, ClearEnds, Line;
    var g := Get(1, x);
    if g.Got? {
      SegmentsStay(0, g.words[0], Line(PathPiece(PathStart), ClearEnds(g.next)));
    }
  }

  lemma PacketStays(x: St)
    ensures Stays(SampledPacket(x))
  {
    hide Read, ReadHeaderBytes, DecodeHeader, Line, Show;
    ReadsStay();
  }

  lemma PartStays(p: Part, x: St)
    ensures Stays(ReadPart(p, x))
  {
    hide SampledPacket, ReadStack, Store, StoreStr, Line, Show;
    PacketStays(x);
    ReadsStay();
  }

  lemma {:induction false} PartsStay(ps: seq<Part>, x: St)
    ensures Stays(ReadParts(ps, x))
    decreases |ps|
  {
    hide ReadPart;
    if ps == [] {
    } else {
      PartStays(ps[0], x);
      if ReadPart(ps[0], x).sig.Fine? {
        PartsStay(ps[1..], ReadPart(ps[0], x).st);
      }
    }
  }

  lemma GatewayStays(x: St)
    ensures Stays(Gateway(x)) && Stays(GatewayV2(x))
  {
    hide Read, ReadAddr, ReadPath, ReadPathV2, ReadCommunities, Line, Show, ShowAddr, ShowOwnAses, ShowPathV2,
         ShowCommunities, Mark;
    ReadsStay();
    forall y
      ensures Stays(ReadPath(y))
    {
      PathStays(y);
    }
  }

  lemma RecordsStay(x: St)
    ensures Stays(Switch(x)) && Stays(Router(x)) && Stays(User(x)) && Stays(UrlOf(x)) && Stays(Mpls(x)) && Stays(Nat(x))
  {
    hide Read, ReadAddr, ReadStr, ReadStack, Line, Show, ShowAddr, ShowStr, Mark;
    ReadsStay();
  }

  lemma RecordStays(t: u32, x: St)
    ensures Stays(ReadRecord(t, x))
  {
    hide SampledPacket, Switch, Router, Gateway, User, UrlOf, Mpls, Nat, ReadParts, FlatParts;
    PacketStays(x);
    GatewayStays(x);
    RecordsStay(x);
    PartsStay(FlatParts(t), x);
  }

  lemma ElementStays(x: St)
    ensures Stays(ReadElement(x))
  {
    hide ReadRecord, Known, Line, Count;
    if |x.rest| >= 2 {
      var g := Get(1, x);
      RecordStays(g.words[0], Get(1, Line(BlockTag(g.words[0]), g.next)).next);
    }
  }

  lemma {:induction false} ElementsStay(n: nat, x: St)
    ensures Stays(ReadElements(n, x))
    decreases n
  {
    hide ReadElement;
    if n == 0 {
    } else {
      ElementStays(x);
      if ReadElement(x).sig.Fine? {
        ElementsStay(n - 1, ReadElement(x).st);
      }
    }
  }

  lemma FlowHeadStays(expanded: bool, x: St)
    ensures Stays(ReadFlowHead(expanded, x)) && Stays(ReadFlowHeadV24(x))
  {
    hide Read, Show, ShowRates, ShowSource, ShowPort, Store;
    ReadsStay();
  }

  lemma ChecksStay()
    ensures forall start: nat, len: u32, x {:trigger LengthCheck(start, len, x)} :: Stays(LengthCheck(start, len, x))
  {
  }

  lemma FlowSampleStays(expanded: bool, x: St)
    ensures Stays(ReadFlowSample(expanded, x))
  {
    hide ReadFlowHead, ReadElements, LengthCheck, Line;
    ChecksStay();
    var g := Get(1, Line(Title(FlowSampleLine), x));
    if g.Got? {
      FlowHeadStays(expanded, g.next);
      var o := ReadFlowHead(expanded, g.next);
      if o.sig.Fine? && Get(1, o.st).Got? {
        ElementsStay(Get(1, o.st).words[0], Get(1, o.st).next);
      }
    }
  }

  lemma ExtendedBodyStays(tag: u32, x: St)
    ensures Stays(ReadExtendedBody(tag, x))
  {
    hide Switch, Router, GatewayV2, Gateway, User, UrlOf, Mpls, Nat;
    GatewayStays(x);
    RecordsStay(x);
  }

  lemma ExtendedStays(x: St)
    ensures Stays(ReadExtended(x))
  {
    hide ReadExtendedBody, Count;
    var g := Get(1, x);
    if g.Got? {
      ExtendedBodyStays(g.words[0], g.next);
    }
  }

  lemma {:induction false} ExtendedsStay(n: nat, x: St)
    ensures Stays(ReadExtendeds(n, x))
    decreases n
  {
    hide ReadExtended;
    if n == 0 {
    } else {
      ExtendedStays(x);
      if ReadExtended(x).sig.Fine? {
        ExtendedsStay(n - 1, ReadExtended(x).st);
      }
    }
  }

  lemma PacketDataStays(x: St)
    ensures Stays(ReadPacketData(x))
  {
    hide Read, SampledPacket, Store, StoreStr, Line, Show;
    ReadsStay();
    if Read(PacketDataTag, x).sig.Fine? {
      PacketStays(Read(PacketDataTag, x).st);
    }
  }

  lemma FlowSampleV24Stays(x: St)
    ensures Stays(ReadFlowSampleV24(x))
  {
    hide Read, Line, ReadFlowHeadV24, ReadPacketData, ReadExtendeds, ClearFlags;
    ReadsStay();
    var y := Line(Title(FlowSampleLine), x);
    FlowHeadStays(false, y);
    var o := ReadFlowHeadV24(y);
    if o.sig.Fine? {
      PacketDataStays(o.st);
      var p := ReadPacketData(o.st);
      if p.sig.Fine? {
        var q := Read(NumExtended, ClearFlags(p.st));
        if q.sig.Fine? {
          ExtendedsStay(Num(q.st.f, NumExtended), q.st);
        }
      }
    }
  }

  /** The type of the sample decides. */
  lemma HandsOver(x: St)
    ensures ReadSample(x).sig == Outside(CounterSample)
       <==> x.rest != [] && (x.rest[0] == 2 || (x.rest[0] == 4 && Version(x) >= 5))
  {
    hide ReadFlowSample, ReadFlowSampleV24, Line, Count;
    var o := Read(SampleType, x);
    if o.sig.Fine? {
      var y := Line(SampleTag(Num(o.st.f, SampleType)), o.st);
      FlowSampleStays(false, y);
      FlowSampleStays(true, y);
      FlowSampleV24Stays(y);
      assert Num(o.st.f, SampleType) == x.rest[0] && Version(y) == Version(x);
    }
  }

  lemma HeadStays(x: St)
    ensures Stays(Samples0(x))
  {
    hide Read, ReadAddr, Line, Show, ShowAddr;
    ReadsStay();
  }
}
