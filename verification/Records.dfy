/** The record readers, one function each, and the table of record tags. */
module Records {
  import opened Xdr
  import opened SampleState
  import opened Reader

  const USER_LEN: BufLen := 200
  const URL_LEN: BufLen := 200
  const HOST_LEN: BufLen := 200

  function Version(x: St): u32 {
    Num(x.f, DatagramVersion)
  }

  function Switch(x: St): (o: Out)
    ensures Advances(x, o.st)
  {
    var x := Line(Title(SwitchRecord), x);
    var x :- Read(InVlan, x);
    var x :- Read(InPriority, x);
    var x :- Read(OutVlan, x);
    var x :- Read(OutPriority, x);
    var x := Mark(HasSwitch, x);
    Out(Fine, Show(OutPriority, Show(OutVlan, Show(InPriority, Show(InVlan, x)))))
  }

  function Router(x: St): (o: Out)
    ensures Advances(x, o.st)
  {
    var x :- ReadAddr(NextHop, Line(Title(RouterRecord), x));
    var x :- Read(SrcMask, x);
    var x :- Read(DstMask, x);
    var x := Mark(HasRouter, x);
    Out(Fine, Show(DstMask, Show(SrcMask, ShowAddr(NextHop, x))))
  }

  /** The three AS numbers that all gateway records start with. */
  function OwnAses(x: St): (o: Out)
    ensures Advances(x, o.st)
  {
    var x :- Read(MyAs, x);
    var x :- Read(SrcAs, x);
    Read(SrcPeerAs, x)
  }

  function ShowOwnAses(x: St): (y: St)
    ensures |y.rest| == |x.rest| && y.f == x.f && |x.log| <= |y.log|
  {
    Show(SrcPeerAs, Show(SrcAs, Show(MyAs, x)))
  }

  function GatewayV2(x: St): (o: Out)
    ensures Advances(x, o.st)
  {
    var x :- OwnAses(Line(Title(GatewayRecord), x));
    var x :- ReadPathV2(x);
    var x := ShowOwnAses(Mark(HasGateway, x));
    Out(Fine, ShowPathV2(Show(DstAsPathLen, Show(DstPeerAs, Show(DstAs, x)))))
  }

  function BgpNextHopOf(x: St): (o: Out)
    ensures Advances(x, o.st)
  {
    if Version(x) < 5 then Out(Fine, x) else
      var x :- ReadAddr(BgpNextHop, x);
      Out(Fine, ShowAddr(BgpNextHop, x))
  }

  function GatewayPath(x: St): (o: Out)
    ensures Advances(x, o.st)
  {
    var x :- BgpNextHopOf(x);
    var x :- OwnAses(x);
    ReadPath(ShowOwnAses(x))
  }

  function Gateway(x: St): (o: Out)
    ensures Advances(x, o.st)
  {
    var x :- GatewayPath(Line(Title(GatewayRecord), x));
    var x :- ReadCommunities(Show(DstPeerAs, Show(DstAs, x)));
    var x :- Read(Localpref, ShowCommunities(Mark(HasGateway, x)));
    Out(Fine, Show(Localpref, x))
  }

  function Charset(d: NumSlot, x: St): (o: Out)
    ensures Advances(x, o.st)
  {
    if Version(x) < 5 then Out(Fine, x) else
      var x :- Read(d, x);
      Out(Fine, Show(d, x))
  }

  function User(x: St): (o: Out)
    ensures Advances(x, o.st)
  {
    var x :- Charset(SrcUserCharset, Line(Title(UserRecord), x));
    var x :- ReadStr(SrcUser, USER_LEN, x);
    var x :- Charset(DstUserCharset, x);
    var x :- ReadStr(DstUser, USER_LEN, x);
    Out(Fine, ShowStr(DstUser, ShowStr(SrcUser, Mark(HasUser, x))))
  }

  function HostOf(x: St): (o: Out)
    ensures Advances(x, o.st)
  {
    if Version(x) < 5 then Out(Fine, x) else
      var x :- ReadStr(Host, HOST_LEN, x);
      Out(Fine, ShowStr(Host, x))
  }

  function UrlOf(x: St): (o: Out)
    ensures Advances(x, o.st)
  {
    var x :- Read(UrlDirection, Line(Title(UrlRecord), x));
    var x :- ReadStr(Url, URL_LEN, Show(UrlDirection, x));
    var x :- HostOf(ShowStr(Url, x));
    Out(Fine, Mark(HasUrl, x))
  }

  function Mpls(x: St): (o: Out)
    ensures Advances(x, o.st)
  {
    var x :- ReadAddr(MplsNextHop, Line(Title(MplsRecord), x));
    var x :- ReadStack(MplsIn, ShowAddr(MplsNextHop, x));
    var x :- ReadStack(MplsOut, x);
    Out(Fine, Mark(HasMpls, x))
  }

  function Nat(x: St): (o: Out)
    ensures Advances(x, o.st)
  {
    var x :- ReadAddr(NatSrc, Line(Title(NatRecord), x));
    var x :- ReadAddr(NatDst, ShowAddr(NatSrc, x));
    Out(Fine, Mark(HasNat, ShowAddr(NatDst, x)))
  }

  function StrippedOf(x: St): (o: Out)
    ensures Advances(x, o.st)
  {
    if Version(x) <= 4 then Out(Fine, x) else
      var x :- Read(StrippedBytes, x);
      Out(Fine, Show(StrippedBytes, x))
  }

  /** A sampled packet header: its captured bytes are kept and looked into. */
  function SampledPacket(x: St): (o: Out)
    ensures Advances(x, o.st)
  {
    var x :- Read(HeaderProtocol, Line(Title(HeaderRecord), x));
    var x :- Read(SampledPacketSize, Show(HeaderProtocol, x));
    var x :- StrippedOf(Show(SampledPacketSize, x));
    var x :- Read(HeaderLen, x);
    var x :- ReadHeaderBytes(Show(HeaderLen, x));
    DecodeHeader(x)
  }

  // The records that are only printed, as the list of their parts.

  datatype Part =
    | W | D | Status | S(room: BufLen) | B(n: u32) | IpStruct(size: StructLen) | Stack(name: StackName)
    | Packet | Flagged(flag: Flag)

  function ReadPart(p: Part, x: St): (o: Out)
    ensures Advances(x, o.st)
  {
    match p
    case W => Next32(x)
    case D => Next64(x)
    case Status => NextStatus(x)
    case S(room) => NextString(room, x)
    case B(n) => NextBytes(n, x)
    case IpStruct(size) => ReadIpStruct(size, x)
    case Stack(name) => ReadStack(name, x)
    case Packet => SampledPacket(x)
    case Flagged(flag) => Out(Fine, Mark(flag, x))
  }

  function ReadParts(ps: seq<Part>, x: St): (o: Out)
    ensures Advances(x, o.st)
    decreases |ps|
  {
    if ps == [] then Out(Fine, x) else
      var y :- ReadPart(ps[0], x);
      ReadParts(ps[1..], y)
  }

  function Http(xff: bool): seq<Part> {
    [W, W, S(255), S(64), S(255), S(128)] + (if xff then [S(64)] else [])
    + [S(32), S(64)] + (if xff then [D] else []) + [D, W, W]
  }

  /** The parts of a printed record of flow tag t; none for any other tag. */
  function FlatParts(t: u32): seq<Part> {
    match t
    case 2 | 1021 | 1022 => [W, B(6), B(6), W]
    case 3 | 1023 | 1024 => [IpStruct(32)]
    case 4 | 1025 | 1026 => [IpStruct(56)]
    case 1008 | 1009 => [S(100), W, W, Flagged(if t == 1008 then HasMplsTunnel else HasMplsVc)]
    case 1010 => [S(100), W, Flagged(HasMplsFtn)]
    case 1011 => [W, Flagged(HasMplsLdpFec)]
    case 1012 => [Stack(VlanTunnel), Flagged(HasVlanTunnel)]
    case 1013 => [W, Packet]
    case 1014 => [S(256), B(6), W, W, D, W, W, W]
    case 1015 => [S(256), B(6), W, W, W, W, W, D, W]
    case 1020 => [W, W]
    case 1027 | 1028 | 1029 | 1030 => [W]
    case 2100 | 2102 => [W, W, W, W, W]
    case 2101 | 2103 => [W, B(16), B(16), W, W]
    case 2200 => [W, W, S(255), W, W, W, W]
    case 2201 => Http(false)
    case 2202 => [S(32), S(32), S(255), S(32), D, D, Status, W]
    case 2203 => [S(32), S(32), S(255)]
    case 2204 | 2205 => [S(64)]
    case 2206 => Http(true)
    case _ => []
  }

  /** The flow record tags that have a reader. */
  predicate Known(t: u32) {
    t == 1 || 1001 <= t <= 1007 || FlatParts(t) != []
  }

  /** The reader of a known flow record tag. */
  function ReadRecord(t: u32, x: St): (o: Out)
    ensures Advances(x, o.st)
  {
    match t
    case 1 => SampledPacket(x)
    case 1001 => Switch(x)
    case 1002 => Router(x)
    case 1003 => Gateway(x)
    case 1004 => User(x)
    case 1005 => UrlOf(x)
    case 1006 => Mpls(x)
    case 1007 => Nat(x)
    case _ => ReadParts(FlatParts(t), x)
  }
}
