/** Decoding the encoding of a version 2 or version 4 datagram gives back its values,
    in order, and ends at its end. */
module OldTrip {
  import opened Xdr
  import opened SampleState
  import opened Reader
  import opened Records
  import opened FlowDecode
  import opened Formats
  import opened Encoding
  import opened OldEncoding
  import opened RoundTrip
  import opened PrintedTrip
  import opened DatagramTrip

  // Extended data.

  function ExtendedWork(e: Extended): nat {
    if e.GatewayData? then PathWork(e.path) else 0
  }

  function BodyAfter(version: u32, e: Extended, x: St): St
    requires ExtendedOk(version, e)
  {
    St(x.rest, ExtendedFields(version, e, x.f), ExtendedPath(e, x.path), x.log + ExtendedLines(version, e),
       x.work + ExtendedWork(e))
  }

  lemma SwitchDataAt(v: u32, e: Extended, t: seq<u32>, x: St)
    requires e.SwitchData?
    ensures Switch(WithRest(PutExtendedBody(v, e, t), x)) == Out(Fine, WithRest(t, BodyAfter(v, e, x)))
  {
    var r := SwitchRec(e.inVlan, e.inPriority, e.outVlan, e.outPriority);
    hide Switch, WithRest, Put, SwitchSteps;
    SwitchAt(r, t, x);
    SwitchAfter(r, x);
  }

  lemma RouterDataAt(v: u32, e: Extended, t: seq<u32>, x: St)
    requires e.RouterData? && ExtendedOk(v, e)
    ensures Router(WithRest(PutExtendedBody(v, e, t), x)) == Out(Fine, WithRest(t, BodyAfter(v, e, x)))
  {
    var r := RouterRec(e.nextHop, e.srcMask, e.dstMask);
    hide Router, WithRest, Put, PutAddr, RouterSteps, AddressOk;
    RouterAt(r, t, x);
    RouterAfter(r, x);
  }

  function SourceUser(e: Extended, x: St): St
    requires e.UserData? && |e.src| < 0x1_0000_0000
  {
    Store(SrcUserLen, |e.src|, StoreStr(SrcUser, Prefix(e.src, 199), Line(Title(UserRecord), x)))
  }

  function UserRead(e: Extended, x: St): St
    requires e.UserData? && |e.src| < 0x1_0000_0000 && |e.dst| < 0x1_0000_0000
  {
    var z := Store(DstUserLen, |e.dst|, StoreStr(DstUser, Prefix(e.dst, 199), SourceUser(e, x)));
    ShowStr(DstUser, ShowStr(SrcUser, Mark(HasUser, z)))
  }

  lemma UserDataAt(v: u32, e: Extended, t: seq<u32>, x: St)
    requires e.UserData? && ExtendedOk(v, e) && Version(x) < 5
    ensures User(WithRest(PutExtendedBody(v, e, t), x)) == Out(Fine, WithRest(t, UserRead(e, x)))
  {
    var y := Line(Title(UserRecord), x);
    assert Version(y) < 5 && Version(SourceUser(e, x)) < 5;
    AtVersion(PutExtendedBody(v, e, t), y);
    AtVersion(PutStr(e.dst, t), SourceUser(e, x));
    hide ReadStr, WithRest, Store, StoreStr, PutStr, Line, Show, ShowStr, Mark, Version;
    StoresAt();
    ReadStrAt(SrcUser, USER_LEN, e.src, PutStr(e.dst, t), y);
    ReadStrAt(DstUser, USER_LEN, e.dst, t, SourceUser(e, x));
  }

  lemma UserDataAfter(v: u32, e: Extended, x: St)
    requires e.UserData? && ExtendedOk(v, e)
    ensures UserRead(e, x) == BodyAfter(v, e, x)
  {
    hide Prefix, CString;
    assert UserRead(e, x).log == x.log + ExtendedLines(v, e);
  }

  function UrlRead(e: Extended, x: St): St
    requires e.UrlData? && |e.url| < 0x1_0000_0000
  {
    var y := Show(UrlDirection, Store(UrlDirection, e.direction, Line(Title(UrlRecord), x)));
    ShowStr(Url, Store(UrlLen, |e.url|, StoreStr(Url, Prefix(e.url, 199), y)))
  }

  lemma UrlDataAt(v: u32, e: Extended, t: seq<u32>, x: St)
    requires e.UrlData? && ExtendedOk(v, e) && Version(x) < 5
    ensures UrlOf(WithRest(PutExtendedBody(v, e, t), x)) == Out(Fine, WithRest(t, Mark(HasUrl, UrlRead(e, x))))
  {
    var y := Show(UrlDirection, Store(UrlDirection, e.direction, Line(Title(UrlRecord), x)));
    assert Version(UrlRead(e, x)) < 5;
    AtVersion(t, UrlRead(e, x));
    hide Read, ReadStr, WithRest, Store, StoreStr, Put, PutStr, Line, Show, ShowStr, Mark, Version;
    ReadsAt();
    StoresAt();
    ReadStrAt(Url, URL_LEN, e.url, t, y);
  }

  lemma UrlDataAfter(v: u32, e: Extended, x: St)
    requires e.UrlData? && ExtendedOk(v, e)
    ensures Mark(HasUrl, UrlRead(e, x)) == BodyAfter(v, e, x)
  {
    hide Prefix, CString;
    assert UrlRead(e, x).log == x.log + ExtendedLines(v, e);
  }

  // Gateways.

  /** The state behind the three AS numbers. */
  function OwnRead(m: u32, s: u32, p: u32, x: St): St {
    Store(SrcPeerAs, p, Store(SrcAs, s, Store(MyAs, m, x)))
  }

  lemma OwnAt(m: u32, s: u32, p: u32, t: seq<u32>, x: St)
    ensures OwnAses(WithRest(Put(m, Put(s, Put(p, t))), x)) == Out(Fine, WithRest(t, OwnRead(m, s, p, x)))
  {
    hide Read, WithRest, Store, Put;
    ReadsAt();
    StoresAt();
  }

  /** The gateway data as the record of version 5, whose next hop is not looked at. */
  function AsGateway(e: Extended): Record
    requires e.GatewayData?
  {
    GatewayRec(Address(IP_V4, [0, 0, 0, 0]), e.myAs, e.srcAs, e.srcPeerAs, e.path, e.communities, e.localpref)
  }

  function GatewayTop(e: Extended, x: St): St
    requires e.GatewayData?
  {
    ShowOwnAses(OwnRead(e.myAs, e.srcAs, e.srcPeerAs, Line(Title(GatewayRecord), x)))
  }

  lemma NoNextHop(x: St)
    requires Version(x) < 5
    ensures BgpNextHopOf(x) == Out(Fine, x)
  {
  }

  lemma GatewayPathAt(e: Extended, t: seq<u32>, x: St)
    requires e.GatewayData? && SegmentsFit(e.path) && Version(x) < 5
    ensures GatewayPath(WithRest(Put(e.myAs, Put(e.srcAs, Put(e.srcPeerAs, PutPath(e.path, t)))),
                           Line(Title(GatewayRecord), x)))
         == Out(Fine, WithRest(t, PathRead(AsGateway(e), GatewayTop(e, x))))
  {
    var y := Line(Title(GatewayRecord), x);
    assert Version(y) < 5;
    var ws := Put(e.myAs, Put(e.srcAs, Put(e.srcPeerAs, PutPath(e.path, t))));
    AtVersion(ws, y);
    NoNextHop(WithRest(ws, y));
    hide BgpNextHopOf, OwnAses, ReadPath, WithRest, Put, PutPath, Line, ShowOwnAses, OwnRead, Ends, FirstAs, LastAs,
         PathLines, PathWork, Version, SegmentsFit;
    OwnAt(e.myAs, e.srcAs, e.srcPeerAs, PutPath(e.path, t), y);
    ShowCommunitiesAt(PutPath(e.path, t), OwnRead(e.myAs, e.srcAs, e.srcPeerAs, y));
    PathAt(e.path, t, GatewayTop(e, x));
    WithRestParts(t, PathRead(AsGateway(e), GatewayTop(e, x)));
  }

  lemma GatewayDataAt(v: u32, e: Extended, t: seq<u32>, x: St)
    requires e.GatewayData? && ExtendedOk(v, e) && Version(x) < 5
    ensures Gateway(WithRest(PutExtendedBody(v, e, t), x))
         == Out(Fine, WithRest(t, GatewayTail(AsGateway(e), PathRead(AsGateway(e), GatewayTop(e, x)))))
  {
    hide GatewayPath, Read, ReadCommunities, WithRest, Store, Put, PutPath, PutList, Line, Show, ShowCommunities,
         CommunitiesStored, PathRead, GatewayTop, Mark, Version;
    ReadsAt();
    StoresAt();
    var u := PutList(e.communities, Put(e.localpref, t));
    var y := Show(DstPeerAs, Show(DstAs, PathRead(AsGateway(e), GatewayTop(e, x))));
    GatewayPathAt(e, u, x);
    ReadCommunitiesAt(e.communities, Put(e.localpref, t), y);
    ShowCommunitiesAt(Put(e.localpref, t), Mark(HasGateway, CommunitiesStored(e.communities, y)));
  }

  lemma GatewayTopAfter(e: Extended, x: St)
    requires e.GatewayData?
    ensures GatewayTop(e, x)
         == St(x.rest, x.f.(num := x.f.num[MyAs := e.myAs][SrcAs := e.srcAs][SrcPeerAs := e.srcPeerAs]), x.path,
               x.log + [Title(GatewayRecord), ShowNum(MyAs, e.myAs), ShowNum(SrcAs, e.srcAs),
                        ShowNum(SrcPeerAs, e.srcPeerAs)], x.work)
  {
    assert GatewayTop(e, x).log
        == x.log + [Title(GatewayRecord), ShowNum(MyAs, e.myAs), ShowNum(SrcAs, e.srcAs),
                    ShowNum(SrcPeerAs, e.srcPeerAs)];
  }

  lemma GatewayDataLog(v: u32, e: Extended, log: seq<Event>)
    requires e.GatewayData? && ExtendedOk(v, e)
    ensures log + [Title(GatewayRecord), ShowNum(MyAs, e.myAs), ShowNum(SrcAs, e.srcAs),
                   ShowNum(SrcPeerAs, e.srcPeerAs)]
            + PathLines(e.path) + [ShowNum(DstAs, LastAs(e.path))] + [ShowNum(DstPeerAs, FirstAs(e.path))]
            + (if e.communities == [] then [] else [Communities(e.communities)]) + [ShowNum(Localpref, e.localpref)]
         == log + ExtendedLines(v, e)
  {
    hide FirstAs, LastAs, PathLines, SegmentsFit;
  }

  lemma GatewayDataAfter(v: u32, e: Extended, x: St)
    requires e.GatewayData? && ExtendedOk(v, e)
    ensures GatewayTail(AsGateway(e), PathRead(AsGateway(e), GatewayTop(e, x))) == BodyAfter(v, e, x)
  {
    hide FirstAs, LastAs, PathLines, PathWork, GatewayTop, GatewayTail, PathRead, SegmentsFit;
    GatewayTopAfter(e, x);
    GatewayTailAfter(AsGateway(e), GatewayTop(e, x));
    GatewayDataLog(v, e, x.log);
  }

  /** A list of version 2 and its endpoints. */
  function ListStored(ases: seq<u32>, x: St): St
    requires |ases| < WRAPS
  {
    var y := Store(DstAsPathLen, |ases|, ClearEnds(x));
    if ases == [] then y else
      var z := SetPath([Segment(AS_SEQUENCE, ases)], StoreList(DstAsPathList, ases, y));
      Store(DstAs, ases[|ases| - 1], Store(DstPeerAs, ases[0], z))
  }

  lemma ListAt(ases: seq<u32>, t: seq<u32>, x: St)
    requires |ases| < WRAPS
    ensures ReadPathV2(WithRest(PutList(ases, t), x)) == Out(Fine, WithRest(t, ListStored(ases, x)))
  {
    ClearEndsAt(PutList(ases, t), x);
    hide Get, WithRest, Store, StoreList, SetPath, Put, PutAll, ClearEnds;
    GetsAt();
    StoresAt();
  }

  function ListTop(e: Extended, x: St): St
    requires e.ListData? && |e.ases| < WRAPS
  {
    ListStored(e.ases, OwnRead(e.myAs, e.srcAs, e.srcPeerAs, Line(Title(GatewayRecord), x)))
  }

  function ListShown(y: St): St {
    ShowPathV2(Show(DstAsPathLen, Show(DstPeerAs, Show(DstAs, ShowOwnAses(Mark(HasGateway, y))))))
  }

  lemma ShownAt(t: seq<u32>, x: St)
    ensures ShowPathV2(WithRest(t, x)) == WithRest(t, ShowPathV2(x))
  {
  }

  lemma ListDataAt(v: u32, e: Extended, t: seq<u32>, x: St)
    requires e.ListData? && ExtendedOk(v, e)
    ensures GatewayV2(WithRest(PutExtendedBody(v, e, t), x)) == Out(Fine, WithRest(t, ListShown(ListTop(e, x))))
  {
    hide OwnAses, ReadPathV2, WithRest, Put, PutList, Line, Show, ShowOwnAses, ShowPathV2, OwnRead, ListStored, Mark;
    StoresAt();
    var y := Line(Title(GatewayRecord), x);
    var z := OwnRead(e.myAs, e.srcAs, e.srcPeerAs, y);
    OwnAt(e.myAs, e.srcAs, e.srcPeerAs, PutList(e.ases, t), y);
    ListAt(e.ases, t, z);
    ShowCommunitiesAt(t, Mark(HasGateway, ListTop(e, x)));
    ShownAt(t, Show(DstAsPathLen, Show(DstPeerAs, Show(DstAs, ShowOwnAses(Mark(HasGateway, ListTop(e, x)))))));
  }

  lemma ListNumbers(num: map<NumSlot, u32>, n: u32, p: u32, a: u32)
    ensures num[DstPeerAs := 0][DstAs := 0][DstAsPathLen := n][DstPeerAs := p][DstAs := a]
         == num[DstPeerAs := p][DstAs := a][DstAsPathLen := n]
  {
  }

  lemma ListStoredAfter(ases: seq<u32>, x: St)
    requires |ases| < WRAPS
    ensures ListStored(ases, x)
         == St(x.rest,
               x.f.(num := x.f.num[DstPeerAs := FirstOf(ases)][DstAs := LastOf(ases)][DstAsPathLen := |ases|],
                    list := if ases == [] then x.f.list else x.f.list[DstAsPathList := ases]),
               if ases == [] then [] else [Segment(AS_SEQUENCE, ases)], x.log, x.work)
  {
    ClearedEnds(x);
    hide ClearEnds;
    if ases == [] {
    } else {
      ListNumbers(x.f.num, |ases|, ases[0], ases[|ases| - 1]);
    }
  }

  lemma ListDataAfter(v: u32, e: Extended, x: St)
    requires e.ListData? && ExtendedOk(v, e)
    ensures ListShown(ListTop(e, x)) == BodyAfter(v, e, x)
  {
    hide ListStored, FirstOf, LastOf;
    ListStoredAfter(e.ases, OwnRead(e.myAs, e.srcAs, e.srcPeerAs, Line(Title(GatewayRecord), x)));
    assert ListShown(ListTop(e, x)).log == x.log + ExtendedLines(v, e);
  }

  lemma ListRead(v: u32, e: Extended, t: seq<u32>, x: St)
    requires e.ListData? && ExtendedOk(v, e)
    ensures GatewayV2(WithRest(PutExtendedBody(v, e, t), x)) == Out(Fine, WithRest(t, BodyAfter(v, e, x)))
  {
    hide GatewayV2, WithRest, PutExtendedBody, BodyAfter, ListShown, ListTop;
    ListDataAt(v, e, t, x);
    ListDataAfter(v, e, x);
  }

  lemma GatewayDataRead(v: u32, e: Extended, t: seq<u32>, x: St)
    requires e.GatewayData? && ExtendedOk(v, e) && Version(x) < 5
    ensures Gateway(WithRest(PutExtendedBody(v, e, t), x)) == Out(Fine, WithRest(t, BodyAfter(v, e, x)))
  {
    hide Gateway, WithRest, PutExtendedBody, BodyAfter, GatewayTail, GatewayTop, PathRead, Version;
    GatewayDataAt(v, e, t, x);
    GatewayDataAfter(v, e, x);
  }

  lemma GatewayBodyAt(e: Extended, t: seq<u32>, x: St)
    requires (e.ListData? || e.GatewayData?) && ExtendedOk(Version(x), e)
    ensures ReadExtendedBody(3, WithRest(PutExtendedBody(Version(x), e, t), x))
         == Out(Fine, WithRest(t, BodyAfter(Version(x), e, x)))
  {
    hide Switch, Router, User, UrlOf, Gateway, GatewayV2, WithRest, PutExtendedBody, BodyAfter, Version, SegmentsFit;
    AtVersion(PutExtendedBody(Version(x), e, t), x);
    if e.ListData? {
      ListRead(Version(x), e, t, x);
    } else {
      GatewayDataRead(Version(x), e, t, x);
    }
  }

  /** Extended data of any kind is read to its end. */
  lemma BodyAt(e: Extended, t: seq<u32>, x: St)
    requires ExtendedOk(Version(x), e) && (Version(x) == 2 || Version(x) == 4)
    ensures ReadExtendedBody(ExtendedTag(e), WithRest(PutExtendedBody(Version(x), e, t), x))
         == Out(Fine, WithRest(t, BodyAfter(Version(x), e, x)))
  {
    var v := Version(x);
    hide Switch, Router, Gateway, GatewayV2, User, UrlOf, WithRest, PutExtendedBody, BodyAfter, UserRead, UrlRead, Mark,
         Version, ExtendedOk;
    match e
    case SwitchData(_, _, _, _) => SwitchDataAt(v, e, t, x);
    case RouterData(_, _, _) => RouterDataAt(v, e, t, x);
    case ListData(_, _, _, _) => GatewayBodyAt(e, t, x);
    case GatewayData(_, _, _, _, _, _) => GatewayBodyAt(e, t, x);
    case UserData(_, _) => UserDataAt(v, e, t, x); UserDataAfter(v, e, x);
    case UrlData(_, _) => UrlDataAt(v, e, t, x); UrlDataAfter(v, e, x);
  }

  function ExtendedAfter(e: Extended, x: St): St
    requires ExtendedOk(Version(x), e)
  {
    Count(BodyAfter(Version(x), e, x))
  }

  lemma ExtendedVersion(e: Extended, x: St)
    requires ExtendedOk(Version(x), e)
    ensures Version(ExtendedAfter(e, x)) == Version(x)
  {
    hide ExtendedLines, ExtendedPath, ExtendedWork, FirstAs, LastAs, FirstOf, LastOf;
  }

  lemma ExtendedAt(e: Extended, t: seq<u32>, x: St)
    requires ExtendedOk(Version(x), e) && (Version(x) == 2 || Version(x) == 4)
    ensures ReadExtended(WithRest(Put(ExtendedTag(e), PutExtendedBody(Version(x), e, t)), x))
         == Out(Fine, WithRest(t, ExtendedAfter(e, x)))
  {
    hide Get, ReadExtendedBody, WithRest, Put, PutExtendedBody, BodyAfter, ExtendedTag, ExtendedOk, Version, Count;
    GetsAt();
    StoresAt();
    BodyAt(e, t, x);
  }

  function ExtendedsWork(es: seq<Extended>): nat {
    if es == [] then 0 else 1 + ExtendedWork(es[0]) + ExtendedsWork(es[1..])
  }

  function ExtendedsAfter(v: u32, es: seq<Extended>, x: St): St
    requires ExtendedsOk(v, es)
  {
    St(x.rest, ExtendedsFields(v, es, x.f), ExtendedsPath(es, x.path), x.log + ExtendedsLines(v, es),
       x.work + ExtendedsWork(es))
  }

  lemma ExtendedsAfterStep(es: seq<Extended>, x: St)
    requires es != [] && ExtendedsOk(Version(x), es)
    ensures ExtendedOk(Version(x), es[0]) && ExtendedsOk(Version(x), es[1..])
    ensures ExtendedsAfter(Version(x), es, x) == ExtendedsAfter(Version(x), es[1..], ExtendedAfter(es[0], x))
  {
    hide ExtendedOk, ExtendedFields, ExtendedLines, ExtendedPath, ExtendedWork, Version;
    var v := Version(x);
    assert forall e :: e in es[1..] ==> e in es;
    assert es[0] in es;
    assert x.log + ExtendedsLines(v, es) == x.log + ExtendedLines(v, es[0]) + ExtendedsLines(v, es[1..]);
  }

  lemma NoExtendedsAfter(v: u32, x: St)
    ensures ExtendedsAfter(v, [], x) == x
  {
    assert x.log + [] == x.log;
  }

  lemma {:induction false} ExtendedsAt(es: seq<Extended>, t: seq<u32>, x: St)
    requires ExtendedsOk(Version(x), es) && (Version(x) == 2 || Version(x) == 4)
    ensures ReadExtendeds(|es|, WithRest(PutExtendeds(Version(x), es, t), x))
         == Out(Fine, WithRest(t, ExtendedsAfter(Version(x), es, x)))
    ensures Version(ExtendedsAfter(Version(x), es, x)) == Version(x)
  {
    hide ReadExtended, WithRest, Put, PutExtendedBody, ExtendedOk, ExtendedsAfter, ExtendedAfter, ExtendedTag, Version;
    if es == [] {
      NoExtendedsAfter(Version(x), x);
    } else {
      ExtendedsAfterStep(es, x);
      ExtendedAt(es[0], PutExtendeds(Version(x), es[1..], t), x);
      ExtendedVersion(es[0], x);
      ExtendedsAt(es[1..], t, ExtendedAfter(es[0], x));
    }
  }

  // Packet data.

  function DataHead(d: PacketData, x: St): St
    requires d.HeaderData? && |d.bytes| < 0x1_0000_0000
  {
    var y := Show(HeaderProtocol, Store(HeaderProtocol, d.protocol, Line(Title(HeaderRecord), x)));
    var z := Show(SampledPacketSize, Store(SampledPacketSize, d.size, y));
    Show(HeaderLen, Store(HeaderLen, |d.bytes|, z))
  }

  lemma DataVersion(d: PacketData, x: St)
    requires d.HeaderData? && |d.bytes| < 0x1_0000_0000
    ensures var y := Show(HeaderProtocol, Store(HeaderProtocol, d.protocol, Line(Title(HeaderRecord), x)));
            Version(Show(SampledPacketSize, Store(SampledPacketSize, d.size, y))) == Version(x)
    ensures Num(DataHead(d, x).f, HeaderLen) == |d.bytes|
  {
  }

  function HeaderRead(d: PacketData, x: St): Out
    requires d.HeaderData? && |d.bytes| < 0x1_0000_0000
  {
    DecodeHeader(PacketBytes(PacketOf(d), DataHead(d, x)))
  }

  lemma HeaderDataAt(d: PacketData, t: seq<u32>, x: St)
    requires d.HeaderData? && |d.bytes| < 0x1_0000_0000 && Version(x) < 5
    ensures var o := HeaderRead(d, x);
            SampledPacket(WithRest(Put(d.protocol, Put(d.size, PutStr(d.bytes, t))), x))
            == Out(o.sig, WithRest(t, o.st))
  {
    DataVersion(d, x);
    hide Read, ReadHeaderBytes, DecodeHeader, WithRest, Store, Put, PutAll, Pack, Line, Show, Version, PacketBytes, Num;
    ReadsAt();
    StoresAt();
    var y := Show(HeaderProtocol, Store(HeaderProtocol, d.protocol, Line(Title(HeaderRecord), x)));
    var z := Show(SampledPacketSize, Store(SampledPacketSize, d.size, y));
    AtVersion(PutStr(d.bytes, t), z);
    HeaderBytesAt(PacketOf(d), t, DataHead(d, x));
    DecodeHeaderAt(t, PacketBytes(PacketOf(d), DataHead(d, x)));
  }

  function DataAfter(d: PacketData, x: St): St
    requires DataOk(d)
  {
    St(x.rest, DataFields(d, x.f), x.path, x.log + DataLines(d), x.work)
  }

  lemma HeaderDataStored(d: PacketData, x: St)
    requires d.HeaderData? && DataOk(d)
    ensures var y := PacketBytes(PacketOf(d), DataHead(d, Store(PacketDataTag, 1, x)));
            && Num(y.f, HeaderProtocol) == d.protocol && Num(y.f, HeaderLen) == |d.bytes|
            && Str(y.f, SampledHeader) == Padded(d.bytes)
            && VlanStored(PacketOf(d), y) == DataAfter(d, x)
  {
    hide Padded, VlanOf;
    var y := PacketBytes(PacketOf(d), DataHead(d, Store(PacketDataTag, 1, x)));
    assert VlanStored(PacketOf(d), y).log == x.log + DataLines(d);
  }

  lemma HeaderDataAfter(d: PacketData, x: St)
    requires d.HeaderData? && DataOk(d)
    ensures DataDefined(d) ==> HeaderRead(d, Store(PacketDataTag, 1, x)) == Out(Fine, DataAfter(d, x))
    ensures !DataDefined(d) ==> HeaderRead(d, Store(PacketDataTag, 1, x)).sig == Exit(-12)
  {
    hide DecodeHeader, PacketBytes, DataHead, Padded, VlanStored, DataFields, DataLines;
    HeaderDataStored(d, x);
    HeaderDecoded(PacketOf(d), PacketBytes(PacketOf(d), DataHead(d, Store(PacketDataTag, 1, x))));
  }

  lemma IpDataAfter(d: PacketData, x: St)
    requires !d.HeaderData? && DataOk(d)
    ensures IpRead(d.length, d.others, Store(PacketDataTag, if d.Ipv4Data? then 2 else 3, x)) == DataAfter(d, x)
  {
    hide IpRead, IpFields, IpLines;
    IpAfter(d.length, d.others, Store(PacketDataTag, if d.Ipv4Data? then 2 else 3, x));
  }

  lemma TagKnown(tag: u32, t: seq<u32>, x: St)
    ensures var y := Store(PacketDataTag, tag, x);
            Num(WithRest(t, y).f, PacketDataTag) == tag && Version(y) == Version(x)
  {
  }

  /** Packet data of any kind is read to its end. */
  lemma DataAt(d: PacketData, t: seq<u32>, x: St)
    requires DataOk(d) && Version(x) < 5
    ensures var o := ReadPacketData(WithRest(PutData(d, t), x));
            && (DataDefined(d) ==> o == Out(Fine, WithRest(t, DataAfter(d, x))))
            && (!DataDefined(d) ==> o.sig == Exit(-12))
  {
    hide Read, SampledPacket, ReadIpStruct, WithRest, Store, Put, PutAll, PutStr, DataAfter, HeaderRead, IpRead, Num,
         Version;
    ReadsAt();
    match d
    case HeaderData(protocol, size, bytes) =>
      TagKnown(1, Put(protocol, Put(size, PutStr(bytes, t))), x);
      HeaderDataAt(d, t, Store(PacketDataTag, 1, x));
      HeaderDataAfter(d, x);
    case Ipv4Data(length, others) =>
      TagKnown(2, PutAll([length] + others, t), x);
      IpAt(length, others, t, Store(PacketDataTag, 2, x));
      IpDataAfter(d, x);
    case Ipv6Data(length, others) =>
      TagKnown(3, PutAll([length] + others, t), x);
      IpAt(length, others, t, Store(PacketDataTag, 3, x));
      IpDataAfter(d, x);
  }

  // Samples.

  /** A flow sample with the same source and rates. */
  function AsFlow(s: OldSample): FlowSample {
    FlowSample(false, s.sequence, s.dsClass, s.dsIndex, s.meanSkip, s.pool, s.drops, 0, 0, 0, 0, [])
  }

  function NumbersStored(s: OldSample, y: St): St {
    var z := Store(DropEvents, s.drops, Store(SamplePool, s.pool, Store(MeanSkipCount, s.meanSkip, y)));
    Store(OutputPort, s.outPort, Store(InputPort, s.inPort, z))
  }

  function OldHead(s: OldSample, x: St): St {
    Show(OutputPort, Show(InputPort, ShowRates(NumbersStored(s, SourceRead(AsFlow(s), x)))))
  }

  function PutHead(s: OldSample, tail: seq<u32>): seq<u32>
    requires s.dsClass < 0x100 && s.dsIndex < 0x100_0000
  {
    Put(s.sequence, Put(s.dsClass * 0x100_0000 + s.dsIndex, Put(s.meanSkip, Put(s.pool, Put(s.drops,
      Put(s.inPort, Put(s.outPort, tail)))))))
  }

  lemma PlainPortsAt(a: u32, b: u32, t: seq<u32>, x: St)
    ensures ReadPlainPorts(WithRest(Put(a, Put(b, t)), x))
         == Out(Fine, WithRest(t, Store(OutputPort, b, Store(InputPort, a, x))))
  {
    hide Read, WithRest, Store, Put;
    ReadsAt();
    StoresAt();
  }

  lemma OldHeadAt(s: OldSample, t: seq<u32>, x: St)
    requires s.dsClass < 0x100 && s.dsIndex < 0x100_0000
    ensures ReadFlowHeadV24(WithRest(PutHead(s, t), x)) == Out(Fine, WithRest(t, OldHead(s, x)))
  {
    hide ReadFlowTop, ReadRates, ReadPlainPorts, WithRest, Store, Put, SourceRead, Show, ShowRates;
    StoresAt();
    ShowsAt();
    var u := Put(s.inPort, Put(s.outPort, t));
    var y := SourceRead(AsFlow(s), x);
    TopAt(AsFlow(s), Put(s.meanSkip, Put(s.pool, Put(s.drops, u))), x);
    RatesAt(s.meanSkip, s.pool, s.drops, u, y);
    PlainPortsAt(s.inPort, s.outPort, t,
                 Store(DropEvents, s.drops, Store(SamplePool, s.pool, Store(MeanSkipCount, s.meanSkip, y))));
  }

  function OldHeadLines(s: OldSample): seq<Event> {
    [ShowNum(SamplesGenerated, s.sequence), SourceId(s.dsClass, s.dsIndex), ShowNum(MeanSkipCount, s.meanSkip),
     ShowNum(SamplePool, s.pool), ShowNum(DropEvents, s.drops), ShowNum(InputPort, s.inPort),
     ShowNum(OutputPort, s.outPort)]
  }

  function NumberFields(s: OldSample, f: Fields): Fields {
    f.(num := f.num[MeanSkipCount := s.meanSkip][SamplePool := s.pool][DropEvents := s.drops]
    [InputPort := s.inPort][OutputPort := s.outPort])
  }

  lemma NumbersAfter(s: OldSample, y: St)
    ensures Show(OutputPort, Show(InputPort, ShowRates(NumbersStored(s, y))))
         == St(y.rest, NumberFields(s, y.f), y.path,
               y.log + [ShowNum(MeanSkipCount, s.meanSkip), ShowNum(SamplePool, s.pool), ShowNum(DropEvents, s.drops),
                        ShowNum(InputPort, s.inPort), ShowNum(OutputPort, s.outPort)], y.work)
  {
    assert Show(OutputPort, Show(InputPort, ShowRates(NumbersStored(s, y)))).log
        == y.log + [ShowNum(MeanSkipCount, s.meanSkip), ShowNum(SamplePool, s.pool), ShowNum(DropEvents, s.drops),
                    ShowNum(InputPort, s.inPort), ShowNum(OutputPort, s.outPort)];
  }

  lemma OldHeadAfter(s: OldSample, x: St)
    ensures OldHead(s, Line(Title(FlowSampleLine), Line(SampleTag(1), Store(SampleType, 1, x))))
         == St(x.rest, OldHeadFields(s, x.f), x.path,
               x.log + [SampleTag(1)] + [Title(FlowSampleLine)] + OldHeadLines(s), x.work)
  {
    hide SourceRead, ShowRates, Show, NumbersStored;
    var z := Line(Title(FlowSampleLine), Line(SampleTag(1), Store(SampleType, 1, x)));
    SourceAfter(AsFlow(s), z);
    NumbersAfter(s, SourceRead(AsFlow(s), z));
    assert OldHead(s, z).log == z.log + OldHeadLines(s);
  }

  /** The states of a sample in front of the extended data, and behind them. */
  function DataRead(s: OldSample, x: St): St
    requires DataOk(s.data)
  {
    DataAfter(s.data, OldHead(s, Line(Title(FlowSampleLine), x)))
  }

  function ExtendedsStart(s: OldSample, x: St): St
    requires DataOk(s.data) && |s.extendeds| < 0x1_0000_0000
  {
    Store(NumExtended, |s.extendeds|, ClearFlags(DataRead(s, x)))
  }

  lemma HeadKeepsVersion(s: OldSample, x: St)
    ensures Version(OldHead(s, Line(Title(FlowSampleLine), x))) == Version(x)
  {
    hide ShowRates, Show, ShowSource;
  }

  lemma StartVersion(s: OldSample, x: St)
    requires DataOk(s.data) && |s.extendeds| < 0x1_0000_0000
    ensures Version(ExtendedsStart(s, x)) == Version(x)
    ensures Num(ExtendedsStart(s, x).f, NumExtended) == |s.extendeds|
  {
    hide OldHead, DataLines, Padded, Bytes, VlanOf;
    HeadKeepsVersion(s, x);
  }

  lemma ClearFlagsAt(t: seq<u32>, x: St)
    ensures ClearFlags(WithRest(t, x)) == WithRest(t, ClearFlags(x))
  {
  }

  lemma OldFlowAt(s: OldSample, t: seq<u32>, x: St)
    requires OldSampleOk(Version(x), s) && (Version(x) == 2 || Version(x) == 4)
    ensures var o := ReadFlowSampleV24(WithRest(PutHead(s, PutData(s.data,
                                         Put(|s.extendeds|, PutExtendeds(Version(x), s.extendeds, t)))), x));
            && (DataDefined(s.data) ==>
                  o == Out(Fine, WithRest(t, ExtendedsAfter(Version(x), s.extendeds, ExtendedsStart(s, x)))))
            && (!DataDefined(s.data) ==> o.sig == Exit(-12))
  {
    hide Read, ReadFlowHeadV24, ReadPacketData, ReadExtendeds, WithRest, Store, Put, PutHead, PutData, PutExtendeds,
         Line, ClearFlags, OldHead, DataAfter, DataOk, DataDefined, ExtendedsAfter, ExtendedsOk, Version, Num;
    var e := PutExtendeds(Version(x), s.extendeds, t);
    var y := Line(Title(FlowSampleLine), x);
    OldHeadAt(s, PutData(s.data, Put(|s.extendeds|, e)), y);
    HeadKeepsVersion(s, x);
    DataAt(s.data, Put(|s.extendeds|, e), OldHead(s, y));
    ClearFlagsAt(Put(|s.extendeds|, e), DataRead(s, x));
    ReadsAt();
    StoresAt();
    StartVersion(s, x);
    FieldsAt(e, ExtendedsStart(s, x));
    ExtendedsAt(s.extendeds, t, ExtendedsStart(s, x));
  }

  function OldSampleSteps(v: u32, s: OldSample, x: St): St
    requires OldSampleOk(v, s)
  {
    var y := Line(SampleTag(1), Store(SampleType, 1, x));
    Count(Line(EndSample, ExtendedsAfter(v, s.extendeds, ExtendedsStart(s, y))))
  }

  lemma PutOldParts(v: u32, s: OldSample, t: seq<u32>)
    requires OldSampleOk(v, s)
    ensures PutOldSample(v, s, t)
         == Put(1, PutHead(s, PutData(s.data, Put(|s.extendeds|, PutExtendeds(v, s.extendeds, t)))))
  {
    hide Put, PutData, PutExtendeds, DataOk, ExtendedsOk;
  }

  lemma OldSampleAt(s: OldSample, t: seq<u32>, x: St)
    requires OldSampleOk(Version(x), s) && (Version(x) == 2 || Version(x) == 4)
    ensures var o := ReadSample(WithRest(PutOldSample(Version(x), s, t), x));
            && (DataDefined(s.data) ==> o == Out(Fine, WithRest(t, OldSampleSteps(Version(x), s, x))))
            && (!DataDefined(s.data) ==> o.sig == Exit(-12))
  {
    hide Read, WithRest, Store, Put, Line, Count, ReadFlowSampleV24, ExtendedsAfter, ExtendedsStart, PutHead, PutData,
         PutExtendeds, PutOldSample, DataOk, DataDefined, ExtendedsOk, Version;
    var y := Line(SampleTag(1), Store(SampleType, 1, x));
    var u := PutHead(s, PutData(s.data, Put(|s.extendeds|, PutExtendeds(Version(x), s.extendeds, t))));
    PutOldParts(Version(x), s, t);
    TypeStored(1, x);
    LineVersion(SampleTag(1), Store(SampleType, 1, x));
    RestVersion();
    FieldsAt(u, Store(SampleType, 1, x));
    ReadsAt();
    StoresAt();
    OldFlowAt(s, t, y);
  }

  function OldSampleWork(s: OldSample): nat {
    ExtendedsWork(s.extendeds) + 1
  }

  function OldSampleAfter(v: u32, s: OldSample, x: St): St
    requires OldSampleOk(v, s)
  {
    St(x.rest, OldSampleFields(v, s, x.f), ExtendedsPath(s.extendeds, x.path), x.log + OldSampleLines(v, s),
       x.work + OldSampleWork(s))
  }

  lemma OldLinesParts(v: u32, s: OldSample, log: seq<Event>)
    requires OldSampleOk(v, s)
    ensures log + [SampleTag(1)] + [Title(FlowSampleLine)] + OldHeadLines(s) + DataLines(s.data)
            + ExtendedsLines(v, s.extendeds) + [EndSample] == log + OldSampleLines(v, s)
  {
    hide DataLines, ExtendedsLines, ExtendedsOk, DataOk;
  }

  lemma OldSampleStepsAfter(v: u32, s: OldSample, x: St)
    requires OldSampleOk(v, s)
    ensures OldSampleSteps(v, s, x) == OldSampleAfter(v, s, x)
  {
    hide OldHead, OldHeadFields, OldHeadLines, DataFields, DataLines, ExtendedsFields, ExtendedsLines, ExtendedsPath,
         ExtendedsOk, DataOk, OldSampleLines;
    OldHeadAfter(s, x);
    OldLinesParts(v, s, x.log);
  }

  lemma {:induction false} FieldsVersion(v: u32, es: seq<Extended>, f: Fields)
    requires ExtendedsOk(v, es)
    ensures Num(ExtendedsFields(v, es, f), DatagramVersion) == Num(f, DatagramVersion)
  {
    hide FirstAs, LastAs, FirstOf, LastOf, Prefix, SegmentsFit;
    if es == [] {
    } else {
      assert es[0] in es;
      FieldsVersion(v, es[1..], ExtendedFields(v, es[0], f));
    }
  }

  lemma OldSampleVersion(s: OldSample, x: St)
    requires OldSampleOk(Version(x), s)
    ensures Version(OldSampleAfter(Version(x), s, x)) == Version(x)
  {
    hide ExtendedsFields, ExtendedsLines, DataLines, Padded, Bytes, VlanOf, ExtendedsOk;
    var g := DataFields(s.data, OldHeadFields(s, x.f));
    FieldsVersion(Version(x), s.extendeds, g.(flags := {}, num := g.num[NumExtended := |s.extendeds|]));
  }

  function OldSamplesWork(ss: seq<OldSample>): nat {
    if ss == [] then 0 else OldSampleWork(ss[0]) + OldSamplesWork(ss[1..])
  }

  function OldSamplesAfter(v: u32, ss: seq<OldSample>, x: St): St
    requires OldSamplesOk(v, ss)
  {
    St(x.rest, OldSamplesFields(v, ss, x.f), OldSamplesPath(ss, x.path), x.log + OldSamplesLines(v, ss),
       x.work + OldSamplesWork(ss))
  }

  lemma OldSamplesAfterStep(v: u32, ss: seq<OldSample>, x: St)
    requires ss != [] && OldSamplesOk(v, ss)
    ensures OldSampleOk(v, ss[0]) && OldSamplesOk(v, ss[1..])
    ensures OldSamplesAfter(v, ss[1..], OldSampleAfter(v, ss[0], x)) == OldSamplesAfter(v, ss, x)
  {
    hide OldSampleOk, OldSampleFields, OldSampleLines, OldSampleWork, ExtendedsPath;
    assert ss[0] in ss && forall s :: s in ss[1..] ==> s in ss;
    assert x.log + OldSampleLines(v, ss[0]) + OldSamplesLines(v, ss[1..]) == x.log + OldSamplesLines(v, ss);
  }

  lemma NoOldSamplesAfter(v: u32, x: St)
    ensures OldSamplesAfter(v, [], x) == x
  {
    assert x.log + [] == x.log;
  }

  lemma {:induction false} OldSamplesAt(ss: seq<OldSample>, t: seq<u32>, x: St)
    requires OldSamplesOk(Version(x), ss) && (Version(x) == 2 || Version(x) == 4)
    ensures var o := ReadSamples(|ss|, WithRest(PutOldSamples(Version(x), ss, t), x));
            && (OldSamplesDefined(ss) ==> o == Out(Fine, WithRest(t, OldSamplesAfter(Version(x), ss, x))))
            && (!OldSamplesDefined(ss) ==> o.sig == Exit(-12))
  {
    hide ReadSample, WithRest, OldSamplesAfter, OldSampleAfter, OldSampleSteps, PutOldSample, OldSampleOk, DataDefined,
         Version;
    if ss == [] {
      NoOldSamplesAfter(Version(x), x);
    } else {
      assert ss == [ss[0]] + ss[1..];
      OldSamplesAfterStep(Version(x), ss, x);
      OldSampleAt(ss[0], PutOldSamples(Version(x), ss[1..], t), x);
      OldSampleStepsAfter(Version(x), ss[0], x);
      OldSampleVersion(ss[0], x);
      OldSamplesAt(ss[1..], t, OldSampleAfter(Version(x), ss[0], x));
    }
  }

  // Datagrams.

  function OldTop(d: OldDatagram, x: St): St {
    var y := StoreAddr(Agent, d.agent, Show(DatagramVersion, Store(DatagramVersion, d.version, x)));
    Store(SysUpTime, d.upTime, Store(SequenceNo, d.sequence, y))
  }

  lemma OldTopAt(d: OldDatagram, t: seq<u32>, x: St)
    requires (d.version == 2 || d.version == 4) && AddressOk(d.agent)
    ensures ReadDatagramHead(WithRest(Put(d.version, PutAddr(d.agent, Put(d.sequence, Put(d.upTime, t)))), x))
         == Out(Fine, WithRest(t, OldTop(d, x)))
  {
    var y := Show(DatagramVersion, Store(DatagramVersion, d.version, x));
    assert Version(y) == d.version && Version(StoreAddr(Agent, d.agent, y)) == d.version;
    hide Read, ReadAddr, WithRest, Store, StoreAddr, Put, PutAddr, Show, Version;
    RestVersion();
    ReadsAt();
    StoresAt();
    ReadAddrAt(Agent, d.agent, Put(d.sequence, Put(d.upTime, t)), y);
  }

  function OldSteps(d: OldDatagram, x: St): St
    requires OldDatagramOk(d)
  {
    Line(SamplesInPacket(|d.samples|), Show(SysUpTime, Show(SequenceNo, ShowAddr(Agent, OldTop(d, x)))))
  }

  lemma OldStepsVersion(d: OldDatagram, x: St)
    requires OldDatagramOk(d)
    ensures Version(OldSteps(d, x)) == d.version && (d.version == 2 || d.version == 4)
  {
    hide OldSamplesOk;
  }

  lemma OldSamplesLeft(d: OldDatagram, x: St)
    requires OldDatagramOk(d)
    ensures OldSamplesOk(d.version, d.samples)
    ensures ReadDatagram(WithRest(EncodeOld(d), x))
         == ReadSamples(|d.samples|, WithRest(PutOldSamples(d.version, d.samples, []), OldSteps(d, x)))
  {
    hide Get, WithRest, Put, PutAddr, PutOldSamples, Line, Show, ShowAddr, ReadDatagramHead, ReadSamples, OldTop,
         OldSamplesOk, AddressOk;
    GetsAt();
    StoresAt();
    OldTopAt(d, Put(|d.samples|, PutOldSamples(d.version, d.samples, [])), x);
  }

  lemma OldDatagramAt(d: OldDatagram, x: St)
    requires OldDatagramOk(d)
    ensures var o := ReadDatagram(WithRest(EncodeOld(d), x));
            && (OldSamplesDefined(d.samples) ==>
                  o == Out(Fine, WithRest([], OldSamplesAfter(d.version, d.samples, OldSteps(d, x)))))
            && (!OldSamplesDefined(d.samples) ==> o.sig == Exit(-12))
  {
    hide *;
    OldSamplesLeft(d, x);
    OldStepsVersion(d, x);
    OldSamplesAt(d.samples, [], OldSteps(d, x));
  }

  lemma OldStepsAfter(d: OldDatagram)
    requires OldDatagramOk(d)
    ensures OldSteps(d, St([], CLEARED, [], [], 0))
         == St([], CLEARED.(addr := map[Agent := d.agent],
                            num := map[DatagramVersion := d.version, SequenceNo := d.sequence, SysUpTime := d.upTime]),
               [],
               [ShowNum(DatagramVersion, d.version), ShowAddress(Agent, d.agent), ShowNum(SequenceNo, d.sequence),
                ShowNum(SysUpTime, d.upTime), SamplesInPacket(|d.samples|)], 0)
  {
    hide OldSamplesOk;
  }

  /** Decoding the encoding of a version 2 or 4 datagram ends at its end, without an abort,
      and has printed its values, in order, and stored the fields it carries; but it exits
      if and only if a sampled packet has a header protocol that is not defined. */
  lemma DecodeEncodeOld(d: OldDatagram)
    requires OldDatagramOk(d)
    ensures OldSamplesDefined(d.samples) ==>
              Decode(Words(Bytes(EncodeOld(d))))
              == Out(Fine, St([], OldDatagramFields(d), OldSamplesPath(d.samples, []), OldDatagramLines(d),
                              OldSamplesWork(d.samples)))
    ensures !OldSamplesDefined(d.samples) ==> Decode(Words(Bytes(EncodeOld(d)))).sig == Exit(-12)
  {
    var x := St([], CLEARED, [], [], 0);
    hide ReadDatagram, EncodeOld, WithRest, OldSteps, OldSamplesOk, OldSamplesFields, OldSamplesLines, OldSamplesPath,
         OldSamplesWork, OldSamplesDefined, Words, Bytes;
    WordsOfBytes(EncodeOld(d));
    WithRestParts(EncodeOld(d), x);
    OldDatagramAt(d, x);
    OldStepsAfter(d);
    WithRestParts([], OldSamplesAfter(d.version, d.samples, OldSteps(d, x)));
  }

  // What versions 2 and 4 do not know is refused, with status 2.

  lemma ExtendedRefused(tag: u32, t: seq<u32>, x: St)
    requires tag == 0 || tag > 5
    ensures ReadExtended(WithRest(Put(tag, t), x)).sig == Abort(2)
  {
    hide Get, WithRest, Put;
    GetsAt();
  }

  lemma DataRefused(tag: u32, t: seq<u32>, x: St)
    requires tag == 0 || tag > 3
    ensures ReadPacketData(WithRest(Put(tag, t), x)).sig == Abort(2)
  {
    hide Read, WithRest, Store, Put;
    ReadsAt();
    TagKnown(tag, t, x);
  }

  lemma SampleRefused(tag: u32, t: seq<u32>, x: St)
    requires Version(x) < 5 && tag != 1 && tag != 2
    ensures ReadSample(WithRest(Put(tag, t), x)).sig == Abort(2)
  {
    var y := Line(SampleTag(tag), Store(SampleType, tag, x));
    TypeStored(tag, x);
    LineVersion(SampleTag(tag), Store(SampleType, tag, x));
    RestVersion();
    FieldsAt(t, Store(SampleType, tag, x));
    hide Read, WithRest, Store, Put, Line, Version;
    ReadsAt();
    StoresAt();
  }

  /** So is every other version of the format. */
  lemma VersionRefused(version: u32, t: seq<u32>)
    requires version != 2 && version != 4 && version != 5
    ensures Decode(Put(version, t)).sig == Abort(2)
  {
    var x := St([], CLEARED, [], [], 0);
    WithRestParts(Put(version, t), x);
    var y := Show(DatagramVersion, Store(DatagramVersion, version, x));
    assert Version(y) == version;
    RestVersion();
    hide Read, WithRest, Store, Put, Show, Version;
    ReadsAt();
    StoresAt();
  }

  // The words of a sample are put in front of what follows.

  lemma DataMore(d: PacketData, t: seq<u32>, ws: seq<u32>)
    requires DataOk(d)
    ensures PutData(d, ws + t) == PutData(d, ws) + t
  {
    hide Put, PutAll, PutStr, Pack;
    PutsMore(t);
    ItemsMore(t);
  }

  lemma ExtendedMore(v: u32, e: Extended, t: seq<u32>, ws: seq<u32>)
    requires ExtendedOk(v, e)
    ensures PutExtendedBody(v, e, ws + t) == PutExtendedBody(v, e, ws) + t
  {
    hide Put, PutAll, PutAddr, PutStr, PutList, Pack, PutSegments, SegmentsFit;
    PutsMore(t);
    ItemsMore(t);
    if e.GatewayData? {
      SegmentsMore(e.path, PutList(e.communities, Put(e.localpref, ws)), t);
    }
  }

  lemma {:induction false} ExtendedsMore(v: u32, es: seq<Extended>, t: seq<u32>)
    requires ExtendedsOk(v, es)
    ensures PutExtendeds(v, es, t) == PutExtendeds(v, es, []) + t
  {
    hide Put, PutExtendedBody, ExtendedOk;
    if es == [] {
      NothingMore(t);
    } else {
      assert es[0] in es;
      ExtendedsMore(v, es[1..], t);
      ExtendedMore(v, es[0], t, PutExtendeds(v, es[1..], []));
      PutMore(ExtendedTag(es[0]), PutExtendedBody(v, es[0], PutExtendeds(v, es[1..], [])), t);
    }
  }

  lemma OldSampleMore(v: u32, s: OldSample, t: seq<u32>)
    requires OldSampleOk(v, s)
    ensures PutOldSample(v, s, t) == PutOldSample(v, s, []) + t
  {
    hide Put, PutData, PutExtendeds, DataOk, ExtendedsOk;
    PutsMore(t);
    ExtendedsMore(v, s.extendeds, t);
    DataMore(s.data, t, Put(|s.extendeds|, PutExtendeds(v, s.extendeds, [])));
  }
}
