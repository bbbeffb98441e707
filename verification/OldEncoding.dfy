/** The wire format of versions 2 and 4 (RFC 3176, section 4), as an encoder, and the
    lines and fields a datagram should give. A sample holds packet data of one kind and
    a list of extended data, none of which has a length. */
module OldEncoding {
  import opened Xdr
  import opened SampleState
  import opened Formats
  import opened Encoding

  datatype PacketData =
    | HeaderData(protocol: u32, size: u32, bytes: seq<byte>)
    | Ipv4Data(length: u32, others: seq<u32>)
    | Ipv6Data(length: u32, others: seq<u32>)

  /** Extended data. Version 2 gives an AS path as one list, version 4 in segments. */
  datatype Extended =
    | SwitchData(inVlan: u32, inPriority: u32, outVlan: u32, outPriority: u32)
    | RouterData(nextHop: Address, srcMask: u32, dstMask: u32)
    | ListData(myAs: u32, srcAs: u32, srcPeerAs: u32, ases: seq<u32>)
    | GatewayData(myAs: u32, srcAs: u32, srcPeerAs: u32, path: AsPath, communities: seq<u32>, localpref: u32)
    | UserData(src: seq<byte>, dst: seq<byte>)
    | UrlData(direction: u32, url: seq<byte>)

  datatype OldSample = OldSample(
    sequence: u32, dsClass: u32, dsIndex: u32, meanSkip: u32, pool: u32, drops: u32, inPort: u32, outPort: u32,
    data: PacketData, extendeds: seq<Extended>)

  datatype OldDatagram = OldDatagram(
    version: u32, agent: Address, sequence: u32, upTime: u32, samples: seq<OldSample>)

  predicate DataOk(d: PacketData) {
    match d
    case HeaderData(_, _, bytes) => |bytes| < 0x1_0000_0000
    case Ipv4Data(_, others) => |others| == 7
    case Ipv6Data(_, others) => |others| == 13
  }

  function PutData(d: PacketData, tail: seq<u32>): seq<u32>
    requires DataOk(d)
  {
    match d
    case HeaderData(protocol, size, bytes) => Put(1, Put(protocol, Put(size, PutStr(bytes, tail))))
    case Ipv4Data(length, others) => Put(2, PutAll([length] + others, tail))
    case Ipv6Data(length, others) => Put(3, PutAll([length] + others, tail))
  }

  /** What a version can carry. */
  predicate ExtendedOk(version: u32, e: Extended) {
    match e
    case SwitchData(_, _, _, _) => true
    case RouterData(a, _, _) => AddressOk(a)
    case ListData(_, _, _, ases) => version == 2 && |ases| < 0x4000_0000
    case GatewayData(_, _, _, path, communities, _) =>
      version == 4 && SegmentsFit(path) && |communities| < 0x4000_0000
    case UserData(src, dst) => |src| < 0x1_0000_0000 && |dst| < 0x1_0000_0000
    case UrlData(_, url) => |url| < 0x1_0000_0000
  }

  function ExtendedTag(e: Extended): u32 {
    match e
    case SwitchData(_, _, _, _) => 1
    case RouterData(_, _, _) => 2
    case ListData(_, _, _, _) => 3
    case GatewayData(_, _, _, _, _, _) => 3
    case UserData(_, _) => 4
    case UrlData(_, _) => 5
  }

  function PutExtendedBody(version: u32, e: Extended, tail: seq<u32>): seq<u32>
    requires ExtendedOk(version, e)
  {
    match e
    case SwitchData(a, b, c, d) => Put(a, Put(b, Put(c, Put(d, tail))))
    case RouterData(a, b, c) => PutAddr(a, Put(b, Put(c, tail)))
    case ListData(m, s, p, ases) => Put(m, Put(s, Put(p, PutList(ases, tail))))
    case GatewayData(m, s, p, path, communities, l) =>
      Put(m, Put(s, Put(p, PutPath(path, PutList(communities, Put(l, tail))))))
    case UserData(s, t) => PutStr(s, PutStr(t, tail))
    case UrlData(d, u) => Put(d, PutStr(u, tail))
  }

  predicate ExtendedsOk(version: u32, es: seq<Extended>) {
    forall e :: e in es ==> ExtendedOk(version, e)
  }

  function PutExtendeds(version: u32, es: seq<Extended>, tail: seq<u32>): seq<u32>
    requires ExtendedsOk(version, es)
  {
    if es == [] then tail else
      Put(ExtendedTag(es[0]), PutExtendedBody(version, es[0], PutExtendeds(version, es[1..], tail)))
  }

  predicate OldSampleOk(version: u32, s: OldSample) {
    && s.dsClass < 0x100 && s.dsIndex < 0x100_0000 && DataOk(s.data)
    && ExtendedsOk(version, s.extendeds) && |s.extendeds| < 0x1_0000_0000
  }

  function PutOldSample(version: u32, s: OldSample, tail: seq<u32>): seq<u32>
    requires OldSampleOk(version, s)
  {
    Put(1, Put(s.sequence, Put(s.dsClass * 0x100_0000 + s.dsIndex, Put(s.meanSkip, Put(s.pool, Put(s.drops,
      Put(s.inPort, Put(s.outPort, PutData(s.data,
        Put(|s.extendeds|, PutExtendeds(version, s.extendeds, tail)))))))))))
  }

  predicate OldSamplesOk(version: u32, ss: seq<OldSample>) {
    forall s :: s in ss ==> OldSampleOk(version, s)
  }

  function PutOldSamples(version: u32, ss: seq<OldSample>, tail: seq<u32>): seq<u32>
    requires OldSamplesOk(version, ss)
  {
    if ss == [] then tail else PutOldSample(version, ss[0], PutOldSamples(version, ss[1..], tail))
  }

  predicate OldDatagramOk(d: OldDatagram) {
    && (d.version == 2 || d.version == 4) && AddressOk(d.agent)
    && OldSamplesOk(d.version, d.samples) && |d.samples| < 0x1_0000_0000
  }

  function EncodeOld(d: OldDatagram): seq<u32>
    requires OldDatagramOk(d)
  {
    Put(d.version, PutAddr(d.agent, Put(d.sequence, Put(d.upTime,
      Put(|d.samples|, PutOldSamples(d.version, d.samples, []))))))
  }

  // The values, in the order they are printed.

  predicate DataDefined(d: PacketData) {
    d.HeaderData? ==> 1 <= d.protocol <= 17
  }

  predicate OldSamplesDefined(ss: seq<OldSample>) {
    forall s :: s in ss ==> DataDefined(s.data)
  }

  /** The packet as version 5 has it, with nothing stripped. */
  function PacketOf(d: PacketData): Packet
    requires d.HeaderData?
  {
    Packet(d.protocol, d.size, 0, d.bytes)
  }

  function DataLines(d: PacketData): seq<Event>
    requires DataOk(d)
  {
    match d
    case HeaderData(protocol, size, bytes) =>
      [Title(HeaderRecord), ShowNum(HeaderProtocol, protocol), ShowNum(SampledPacketSize, size),
       ShowNum(HeaderLen, |bytes|), HeaderBytes(bytes)]
      + (if VlanOf(PacketOf(d)) == [] then [] else [DecodedVlan(VlanOf(PacketOf(d))[0])])
    case Ipv4Data(length, others) => IpLines(length, others)
    case Ipv6Data(length, others) => IpLines(length, others)
  }

  function DataFields(d: PacketData, f: Fields): Fields
    requires DataOk(d)
  {
    match d
    case HeaderData(protocol, size, bytes) =>
      var num := f.num[PacketDataTag := 1][HeaderProtocol := protocol][SampledPacketSize := size][HeaderLen := |bytes|];
      f.(num := if VlanOf(PacketOf(d)) == [] then num else num[InVlan := VlanOf(PacketOf(d))[0]],
      str := f.str[SampledHeader := Padded(bytes)])
    case Ipv4Data(length, others) => IpFields(length, others, f.(num := f.num[PacketDataTag := 2]))
    case Ipv6Data(length, others) => IpFields(length, others, f.(num := f.num[PacketDataTag := 3]))
  }

  function FirstOf(ases: seq<u32>): u32 {
    if ases == [] then 0 else ases[0]
  }

  function LastOf(ases: seq<u32>): u32 {
    if ases == [] then 0 else ases[|ases| - 1]
  }

  function ExtendedLines(version: u32, e: Extended): seq<Event>
    requires ExtendedOk(version, e)
  {
    match e
    case SwitchData(a, b, c, d) =>
      [Title(SwitchRecord), ShowNum(InVlan, a), ShowNum(InPriority, b), ShowNum(OutVlan, c), ShowNum(OutPriority, d)]
    case RouterData(a, b, c) =>
      [Title(RouterRecord), ShowAddress(NextHop, a), ShowNum(SrcMask, b), ShowNum(DstMask, c)]
    case ListData(m, s, p, ases) =>
      [Title(GatewayRecord), ShowNum(MyAs, m), ShowNum(SrcAs, s), ShowNum(SrcPeerAs, p),
       ShowNum(DstAs, LastOf(ases)), ShowNum(DstPeerAs, FirstOf(ases)), ShowNum(DstAsPathLen, |ases|)]
      + (if ases == [] then [] else [PathV2(ases)])
    case GatewayData(m, s, p, path, communities, l) =>
      [Title(GatewayRecord), ShowNum(MyAs, m), ShowNum(SrcAs, s), ShowNum(SrcPeerAs, p)]
      + PathLines(path) + [ShowNum(DstAs, LastAs(path)), ShowNum(DstPeerAs, FirstAs(path))]
      + (if communities == [] then [] else [Communities(communities)]) + [ShowNum(Localpref, l)]
    case UserData(s, t) =>
      [Title(UserRecord), ShowString(SrcUser, CString(Prefix(s, 199))), ShowString(DstUser, CString(Prefix(t, 199)))]
    case UrlData(d, u) =>
      [Title(UrlRecord), ShowNum(UrlDirection, d), ShowString(Url, CString(Prefix(u, 199)))]
  }

  function ExtendedFields(version: u32, e: Extended, f: Fields): Fields
    requires ExtendedOk(version, e)
  {
    match e
    case SwitchData(a, b, c, d) =>
      f.(num := f.num[InVlan := a][InPriority := b][OutVlan := c][OutPriority := d], flags := f.flags + {HasSwitch})
    case RouterData(a, b, c) =>
      f.(addr := f.addr[NextHop := a], num := f.num[SrcMask := b][DstMask := c], flags := f.flags + {HasRouter})
    case ListData(m, s, p, ases) =>
      f.(num := f.num[MyAs := m][SrcAs := s][SrcPeerAs := p][DstPeerAs := FirstOf(ases)][DstAs := LastOf(ases)]
      [DstAsPathLen := |ases|],
      list := if ases == [] then f.list else f.list[DstAsPathList := ases],
      flags := f.flags + {HasGateway})
    case GatewayData(m, s, p, path, communities, l) =>
      f.(num := f.num[MyAs := m][SrcAs := s][SrcPeerAs := p][DstPeerAs := FirstAs(path)][DstAs := LastAs(path)]
      [CommunitiesLen := |communities|][Localpref := l],
      list := if communities == [] then f.list else f.list[CommunityList := communities],
      flags := f.flags + {HasGateway})
    case UserData(s, t) =>
      f.(num := f.num[SrcUserLen := |s|][DstUserLen := |t|],
      str := f.str[SrcUser := Prefix(s, 199)][DstUser := Prefix(t, 199)], flags := f.flags + {HasUser})
    case UrlData(d, u) =>
      f.(num := f.num[UrlDirection := d][UrlLen := |u|], str := f.str[Url := Prefix(u, 199)],
      flags := f.flags + {HasUrl})
  }

  /** The AS path that is known afterwards. */
  function ExtendedPath(e: Extended, path: AsPath): AsPath {
    match e
    case ListData(_, _, _, ases) => if ases == [] then [] else [Segment(2, ases)]
    case GatewayData(_, _, _, p, _, _) => p
    case _ => path
  }

  function ExtendedsLines(version: u32, es: seq<Extended>): seq<Event>
    requires ExtendedsOk(version, es)
  {
    if es == [] then [] else ExtendedLines(version, es[0]) + ExtendedsLines(version, es[1..])
  }

  function ExtendedsFields(version: u32, es: seq<Extended>, f: Fields): Fields
    requires ExtendedsOk(version, es)
  {
    if es == [] then f else ExtendedsFields(version, es[1..], ExtendedFields(version, es[0], f))
  }

  function ExtendedsPath(es: seq<Extended>, path: AsPath): AsPath {
    if es == [] then path else ExtendedsPath(es[1..], ExtendedPath(es[0], path))
  }

  function OldSampleLines(version: u32, s: OldSample): seq<Event>
    requires OldSampleOk(version, s)
  {
    [SampleTag(1), Title(FlowSampleLine), ShowNum(SamplesGenerated, s.sequence), SourceId(s.dsClass, s.dsIndex),
     ShowNum(MeanSkipCount, s.meanSkip), ShowNum(SamplePool, s.pool), ShowNum(DropEvents, s.drops),
     ShowNum(InputPort, s.inPort), ShowNum(OutputPort, s.outPort)]
    + DataLines(s.data) + ExtendedsLines(version, s.extendeds) + [EndSample]
  }

  function OldHeadFields(s: OldSample, f: Fields): Fields {
    f.(num := f.num[SampleType := 1][SamplesGenerated := s.sequence][DsClass := s.dsClass][DsIndex := s.dsIndex]
    [MeanSkipCount := s.meanSkip][SamplePool := s.pool][DropEvents := s.drops]
    [InputPort := s.inPort][OutputPort := s.outPort])
  }

  /** The marks of extended data are those of this sample alone. */
  function OldSampleFields(version: u32, s: OldSample, f: Fields): Fields
    requires OldSampleOk(version, s)
  {
    var g := DataFields(s.data, OldHeadFields(s, f));
    ExtendedsFields(version, s.extendeds, g.(flags := {}, num := g.num[NumExtended := |s.extendeds|]))
  }

  function OldSamplesLines(version: u32, ss: seq<OldSample>): seq<Event>
    requires OldSamplesOk(version, ss)
  {
    if ss == [] then [] else OldSampleLines(version, ss[0]) + OldSamplesLines(version, ss[1..])
  }

  function OldSamplesFields(version: u32, ss: seq<OldSample>, f: Fields): Fields
    requires OldSamplesOk(version, ss)
  {
    if ss == [] then f else OldSamplesFields(version, ss[1..], OldSampleFields(version, ss[0], f))
  }

  function OldSamplesPath(ss: seq<OldSample>, path: AsPath): AsPath {
    if ss == [] then path else OldSamplesPath(ss[1..], ExtendedsPath(ss[0].extendeds, path))
  }

  function OldDatagramLines(d: OldDatagram): seq<Event>
    requires OldDatagramOk(d)
  {
    [ShowNum(DatagramVersion, d.version), ShowAddress(Agent, d.agent), ShowNum(SequenceNo, d.sequence),
     ShowNum(SysUpTime, d.upTime), SamplesInPacket(|d.samples|)] + OldSamplesLines(d.version, d.samples)
  }

  function OldDatagramFields(d: OldDatagram): Fields
    requires OldDatagramOk(d)
  {
    OldSamplesFields(d.version, d.samples,
      CLEARED.(addr := map[Agent := d.agent],
      num := map[DatagramVersion := d.version, SequenceNo := d.sequence, SysUpTime := d.upTime]))
  }
}
