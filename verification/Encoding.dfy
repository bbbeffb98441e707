/** The version 5 wire format (sFlow Version 5, section 5), as an encoder: what an
    agent sends for a datagram, and which values the datagram holds. */
module Encoding {
  import opened Xdr
  import opened SampleState
  import opened Formats

  datatype Record =
    | HeaderRec(packet: Packet)
    | SwitchRec(inVlan: u32, inPriority: u32, outVlan: u32, outPriority: u32)
    | RouterRec(nextHop: Address, srcMask: u32, dstMask: u32)
    | GatewayRec(bgpNextHop: Address, myAs: u32, srcAs: u32, srcPeerAs: u32, path: AsPath,
                 communities: seq<u32>, localpref: u32)
    | UserRec(srcCharset: u32, src: seq<byte>, dstCharset: u32, dst: seq<byte>)
    | UrlRec(direction: u32, url: seq<byte>, host: seq<byte>)
    | MplsRec(mplsNextHop: Address, inStack: seq<u32>, outStack: seq<u32>)
    | NatRec(natSrc: Address, natDst: Address)
    | PrintedRec(printedTag: u32, values: seq<Value>)
    | OtherRec(tag: u32, body: seq<byte>)

  datatype FlowSample = FlowSample(
    expanded: bool, sequence: u32, dsClass: u32, dsIndex: u32, meanSkip: u32, pool: u32, drops: u32,
    inFormat: u32, inPort: u32, outFormat: u32, outPort: u32, records: seq<Record>)

  datatype Datagram = Datagram(
    agent: Address, subId: u32, sequence: u32, upTime: u32, samples: seq<FlowSample>)

  // Encoders: each prepends the words of one item to the words that follow.

  function Put(w: u32, tail: seq<u32>): (r: seq<u32>)
    ensures |r| == 1 + |tail| && r[0] == w && r[1..] == tail
  {
    [w] + tail
  }

  function PutAll(ws: seq<u32>, tail: seq<u32>): (r: seq<u32>)
    ensures |r| == |ws| + |tail| && r[..|ws|] == ws && r[|ws|..] == tail
  {
    ws + tail
  }

  function PutAddr(a: Address, tail: seq<u32>): seq<u32> {
    Put(a.kind, PutAll(Pack(a.bytes), tail))
  }

  function PutStr(s: seq<byte>, tail: seq<u32>): seq<u32>
    requires |s| < 0x1_0000_0000
  {
    Put(|s|, PutAll(Pack(s), tail))
  }

  function PutList(ws: seq<u32>, tail: seq<u32>): seq<u32>
    requires |ws| < 0x1_0000_0000
  {
    Put(|ws|, PutAll(ws, tail))
  }

  predicate SegmentsFit(path: AsPath) {
    |path| < 0x1_0000_0000 && forall s :: s in path ==> |s.ases| < 0x1_0000_0000
  }

  function PutSegments(path: AsPath, tail: seq<u32>): seq<u32>
    requires SegmentsFit(path)
  {
    if path == [] then tail else
      assert path[0] in path && forall s :: s in path[1..] ==> s in path;
      Put(path[0].kind, PutList(path[0].ases, PutSegments(path[1..], tail)))
  }

  function PutPath(path: AsPath, tail: seq<u32>): seq<u32>
    requires SegmentsFit(path)
  {
    Put(|path|, PutSegments(path, tail))
  }

  /** An address of type 1 (IPv4) has four bytes, one of any other type sixteen. */
  predicate AddressOk(a: Address) {
    |a.bytes| == if a.kind == 1 then 4 else 16
  }

  function PutPacket(p: Packet, tail: seq<u32>): seq<u32>
    requires |p.bytes| < 0x1_0000_0000
  {
    Put(p.protocol, Put(p.size, Put(p.stripped, PutStr(p.bytes, tail))))
  }

  function PutValue(f: Field, v: Value, tail: seq<u32>): seq<u32>
    requires Matches(f, v)
  {
    match v
    case N32(w) => Put(w, tail)
    case N64(hi, lo) => Put(hi, Put(lo, tail))
    case Run(run) => if f.Octets? then PutAll(Pack(run), tail) else PutStr(run, tail)
    case Labelled(labels) => PutList(labels, tail)
    case IpWords(length, others) => PutAll([length] + others, tail)
    case Captured(packet) => PutPacket(packet, tail)
  }

  function PutValues(fs: seq<Field>, vs: seq<Value>, tail: seq<u32>): seq<u32>
    requires AllMatch(fs, vs)
  {
    if fs == [] then tail else PutValue(fs[0], vs[0], PutValues(fs[1..], vs[1..], tail))
  }

  /** A tag that none of the kinds of records has. */
  predicate Unassigned(tag: u32) {
    tag != 1 && !(1001 <= tag <= 1007) && Format(tag) == []
  }

  /** What the format can carry. */
  predicate RecordOk(r: Record) {
    match r
    case HeaderRec(p) => |p.bytes| < 0x1_0000_0000
    case SwitchRec(_, _, _, _) => true
    case RouterRec(a, _, _) => AddressOk(a)
    case GatewayRec(a, _, _, _, path, communities, _) =>
      AddressOk(a) && SegmentsFit(path) && |communities| < 0x4000_0000
    case UserRec(_, src, _, dst) => |src| < 0x1_0000_0000 && |dst| < 0x1_0000_0000
    case UrlRec(_, url, host) => |url| < 0x1_0000_0000 && |host| < 0x1_0000_0000
    case MplsRec(a, ins, outs) => AddressOk(a) && |ins| < 0x4000_0000 && |outs| < 0x4000_0000
    case NatRec(a, b) => AddressOk(a) && AddressOk(b)
    case PrintedRec(tag, vs) => Format(tag) != [] && AllMatch(Format(tag), vs)
    case OtherRec(tag, body) => Unassigned(tag) && |body| <= 0xFFFF_FFFC
  }

  /** The header protocol of every sampled packet in it is defined. */
  predicate RecordDefined(r: Record) {
    match r
    case HeaderRec(p) => Defined(p)
    case PrintedRec(_, vs) => ValuesDefined(vs)
    case _ => true
  }

  function Tag(r: Record): u32 {
    match r
    case HeaderRec(_) => 1
    case SwitchRec(_, _, _, _) => 1001
    case RouterRec(_, _, _) => 1002
    case GatewayRec(_, _, _, _, _, _, _) => 1003
    case UserRec(_, _, _, _) => 1004
    case UrlRec(_, _, _) => 1005
    case MplsRec(_, _, _) => 1006
    case NatRec(_, _) => 1007
    case PrintedRec(tag, _) => tag
    case OtherRec(tag, _) => tag
  }

  function PutBody(r: Record, tail: seq<u32>): seq<u32>
    requires RecordOk(r)
  {
    match r
    case HeaderRec(p) => PutPacket(p, tail)
    case SwitchRec(a, b, c, d) => Put(a, Put(b, Put(c, Put(d, tail))))
    case RouterRec(a, b, c) => PutAddr(a, Put(b, Put(c, tail)))
    case GatewayRec(a, m, s, p, path, communities, l) =>
      PutAddr(a, Put(m, Put(s, Put(p, PutPath(path, PutList(communities, Put(l, tail)))))))
    case UserRec(c, s, d, t) => Put(c, PutStr(s, Put(d, PutStr(t, tail))))
    case UrlRec(d, u, h) => Put(d, PutStr(u, PutStr(h, tail)))
    case MplsRec(a, i, o) => PutAddr(a, PutList(i, PutList(o, tail)))
    case NatRec(a, b) => PutAddr(a, PutAddr(b, tail))
    case PrintedRec(tag, vs) => PutValues(Format(tag), vs, tail)
    case OtherRec(_, body) => PutAll(Pack(body), tail)
  }

  /** The length field of a record: its bytes, without the padding of an unknown body. */
  function Length(r: Record): nat
    requires RecordOk(r)
  {
    if r.OtherRec? then |r.body| else 4 * |PutBody(r, [])|
  }

  function PutRecord(r: Record, tail: seq<u32>): seq<u32>
    requires RecordOk(r) && Length(r) < 0x1_0000_0000
  {
    Put(Tag(r), Put(Length(r), PutBody(r, tail)))
  }

  predicate RecordsOk(rs: seq<Record>) {
    forall r :: r in rs ==> RecordOk(r) && Length(r) < 0x1_0000_0000
  }

  predicate RecordsDefined(rs: seq<Record>) {
    forall r :: r in rs ==> RecordDefined(r)
  }

  function PutRecords(rs: seq<Record>, tail: seq<u32>): seq<u32>
    requires RecordsOk(rs)
  {
    if rs == [] then tail else PutRecord(rs[0], PutRecords(rs[1..], tail))
  }

  /** A compact sample packs the source and the ports into single words. */
  predicate SampleOk(s: FlowSample) {
    && RecordsOk(s.records) && |s.records| < 0x1_0000_0000
    && (!s.expanded ==>
          && s.dsClass < 0x100 && s.dsIndex < 0x100_0000
          && s.inFormat < 4 && s.inPort < 0x4000_0000
          && s.outFormat < 4 && s.outPort < 0x4000_0000)
  }

  function PutSource(s: FlowSample, tail: seq<u32>): seq<u32>
    requires SampleOk(s)
  {
    if s.expanded then Put(s.dsClass, Put(s.dsIndex, tail))
    else Put(s.dsClass * 0x100_0000 + s.dsIndex, tail)
  }

  function PutPorts(s: FlowSample, tail: seq<u32>): seq<u32>
    requires SampleOk(s)
  {
    if s.expanded then Put(s.inFormat, Put(s.inPort, Put(s.outFormat, Put(s.outPort, tail))))
    else Put(s.inFormat * 0x4000_0000 + s.inPort, Put(s.outFormat * 0x4000_0000 + s.outPort, tail))
  }

  function PutSampleBody(s: FlowSample, tail: seq<u32>): seq<u32>
    requires SampleOk(s)
  {
    Put(s.sequence, PutSource(s, Put(s.meanSkip, Put(s.pool, Put(s.drops,
      PutPorts(s, Put(|s.records|, PutRecords(s.records, tail))))))))
  }

  predicate SampleFits(s: FlowSample) {
    SampleOk(s) && 4 * |PutSampleBody(s, [])| < 0x1_0000_0000
  }

  function PutSample(s: FlowSample, tail: seq<u32>): seq<u32>
    requires SampleFits(s)
  {
    Put(if s.expanded then 3 else 1, Put(4 * |PutSampleBody(s, [])|, PutSampleBody(s, tail)))
  }

  predicate SamplesFit(ss: seq<FlowSample>) {
    forall s :: s in ss ==> SampleFits(s)
  }

  function PutSamples(ss: seq<FlowSample>, tail: seq<u32>): seq<u32>
    requires SamplesFit(ss)
  {
    if ss == [] then tail else PutSample(ss[0], PutSamples(ss[1..], tail))
  }

  /** The header protocol of every sampled packet is defined. */
  predicate SamplesDefined(ss: seq<FlowSample>) {
    forall s :: s in ss ==> RecordsDefined(s.records)
  }

  predicate DatagramOk(d: Datagram) {
    AddressOk(d.agent) && SamplesFit(d.samples) && |d.samples| < 0x1_0000_0000
  }

  function Encode(d: Datagram): seq<u32>
    requires DatagramOk(d)
  {
    Put(5, PutAddr(d.agent, Put(d.subId, Put(d.sequence, Put(d.upTime,
      Put(|d.samples|, PutSamples(d.samples, [])))))))
  }

  // The values of a datagram, in the order they are printed.

  /** The numbers of a segment from the i-th on; a segment of kind 1 is a set. */
  function AsLines(ases: seq<u32>, i: nat, first: bool, kind: u32): seq<Event>
    requires i <= |ases|
    decreases |ases| - i
  {
    if i == |ases| then [] else
      (if i == 0 && first then [] else [PathPiece(Dash)])
      + (if i == 0 && kind == 1 then [PathPiece(Open)] else [])
      + [PathPiece(AsNumber(ases[i]))] + AsLines(ases, i + 1, first, kind)
  }

  function SegmentLines(s: Segment, first: bool): seq<Event> {
    AsLines(s.ases, 0, first, s.kind) + if s.kind == 1 then [PathPiece(Close)] else []
  }

  /** The lines of the segments from the k-th on. */
  function SegmentsLines(path: AsPath, k: nat): seq<Event>
    requires k <= |path|
    decreases |path| - k
  {
    if k == |path| then [] else SegmentLines(path[k], k == 0) + SegmentsLines(path, k + 1)
  }

  function PathLines(path: AsPath): seq<Event> {
    if path == [] then [] else [PathPiece(PathStart)] + SegmentsLines(path, 0) + [PathPiece(PathEnd)]
  }

  /** The neighbouring AS towards the destination: the first one of the first segment. */
  function FirstAs(path: AsPath): u32 {
    if |path| > 0 && |path[0].ases| > 0 then path[0].ases[0] else 0
  }

  /** The destination's AS: the last one of the last segment. */
  function LastAs(path: AsPath): u32 {
    if |path| > 0 && |path[|path| - 1].ases| > 0
    then path[|path| - 1].ases[|path[|path| - 1].ases| - 1] else 0
  }

  function RecordLines(r: Record): seq<Event>
    requires RecordOk(r)
  {
    match r
    case HeaderRec(p) => PacketLines(p)
    case SwitchRec(a, b, c, d) =>
      [Title(SwitchRecord), ShowNum(InVlan, a), ShowNum(InPriority, b), ShowNum(OutVlan, c), ShowNum(OutPriority, d)]
    case RouterRec(a, b, c) =>
      [Title(RouterRecord), ShowAddress(NextHop, a), ShowNum(SrcMask, b), ShowNum(DstMask, c)]
    case GatewayRec(a, m, s, p, path, communities, l) =>
      [Title(GatewayRecord), ShowAddress(BgpNextHop, a), ShowNum(MyAs, m), ShowNum(SrcAs, s), ShowNum(SrcPeerAs, p)]
      + PathLines(path) + [ShowNum(DstAs, LastAs(path)), ShowNum(DstPeerAs, FirstAs(path))]
      + (if communities == [] then [] else [Communities(communities)]) + [ShowNum(Localpref, l)]
    case UserRec(c, s, d, t) =>
      [Title(UserRecord), ShowNum(SrcUserCharset, c), ShowNum(DstUserCharset, d),
       ShowString(SrcUser, CString(Prefix(s, 199))), ShowString(DstUser, CString(Prefix(t, 199)))]
    case UrlRec(d, u, h) =>
      [Title(UrlRecord), ShowNum(UrlDirection, d), ShowString(Url, CString(Prefix(u, 199))),
       ShowString(Host, CString(Prefix(h, 199)))]
    case MplsRec(a, i, o) =>
      [Title(MplsRecord), ShowAddress(MplsNextHop, a)]
      + (if i == [] then [] else [Labels(MplsIn, i)]) + (if o == [] then [] else [Labels(MplsOut, o)])
    case NatRec(a, b) => [Title(NatRecord), ShowAddress(NatSrc, a), ShowAddress(NatDst, b)]
    case PrintedRec(tag, vs) => ValuesLines(Format(tag), vs)
    case OtherRec(tag, body) => [Skipped(false, tag, |body|)]
  }

  function RecordsLines(rs: seq<Record>): seq<Event>
    requires RecordsOk(rs)
  {
    if rs == [] then [] else [BlockTag(Tag(rs[0]))] + RecordLines(rs[0]) + RecordsLines(rs[1..])
  }

  function PortLines(input: bool, format: u32, port: u32): seq<Event> {
    if format <= 3 then [Port(input, format, port)] else []
  }

  function SampleLines(s: FlowSample): seq<Event>
    requires SampleFits(s)
  {
    [SampleTag(if s.expanded then 3 else 1), Title(FlowSampleLine), ShowNum(SamplesGenerated, s.sequence),
     SourceId(s.dsClass, s.dsIndex), ShowNum(MeanSkipCount, s.meanSkip), ShowNum(SamplePool, s.pool),
     ShowNum(DropEvents, s.drops)]
    + PortLines(true, s.inFormat, s.inPort) + PortLines(false, s.outFormat, s.outPort)
    + RecordsLines(s.records) + [EndSample]
  }

  function SamplesLines(ss: seq<FlowSample>): seq<Event>
    requires SamplesFit(ss)
  {
    if ss == [] then [] else SampleLines(ss[0]) + SamplesLines(ss[1..])
  }

  function DatagramLines(d: Datagram): seq<Event>
    requires DatagramOk(d)
  {
    [ShowNum(DatagramVersion, 5), ShowNum(AgentSubId, d.subId), ShowAddress(Agent, d.agent),
     ShowNum(SequenceNo, d.sequence), ShowNum(SysUpTime, d.upTime), SamplesInPacket(|d.samples|)]
    + SamplesLines(d.samples)
  }

  // The fields after a record: what it carries, over what was there before.

  function RecordFields(r: Record, f: Fields): Fields
    requires RecordOk(r)
  {
    match r
    case HeaderRec(p) => PacketFields(p, f)
    case SwitchRec(a, b, c, d) =>
      f.(num := f.num[InVlan := a][InPriority := b][OutVlan := c][OutPriority := d], flags := f.flags + {HasSwitch})
    case RouterRec(a, b, c) =>
      f.(addr := f.addr[NextHop := a], num := f.num[SrcMask := b][DstMask := c], flags := f.flags + {HasRouter})
    case GatewayRec(a, m, s, p, path, communities, l) =>
      f.(addr := f.addr[BgpNextHop := a],
      num := f.num[MyAs := m][SrcAs := s][SrcPeerAs := p][DstPeerAs := FirstAs(path)][DstAs := LastAs(path)]
      [CommunitiesLen := |communities|][Localpref := l],
      list := if communities == [] then f.list else f.list[CommunityList := communities],
      flags := f.flags + {HasGateway})
    case UserRec(c, s, d, t) =>
      f.(num := f.num[SrcUserCharset := c][SrcUserLen := |s|][DstUserCharset := d][DstUserLen := |t|],
      str := f.str[SrcUser := Prefix(s, 199)][DstUser := Prefix(t, 199)], flags := f.flags + {HasUser})
    case UrlRec(d, u, h) =>
      f.(num := f.num[UrlDirection := d][UrlLen := |u|][HostLen := |h|],
      str := f.str[Url := Prefix(u, 199)][Host := Prefix(h, 199)], flags := f.flags + {HasUrl})
    case MplsRec(a, i, o) => f.(addr := f.addr[MplsNextHop := a], flags := f.flags + {HasMpls})
    case NatRec(a, b) => f.(addr := f.addr[NatSrc := a][NatDst := b], flags := f.flags + {HasNat})
    case PrintedRec(tag, vs) =>
      var g := ValuesFields(Format(tag), vs, f);
      g.(flags := g.flags + FlagsOf(tag))
    case OtherRec(_, _) => f
  }

  function RecordsFields(rs: seq<Record>, f: Fields): Fields
    requires RecordsOk(rs)
  {
    if rs == [] then f else RecordsFields(rs[1..], RecordFields(rs[0], f))
  }

  /** The AS path of the latest gateway record. */
  function RecordsPath(rs: seq<Record>, path: AsPath): AsPath {
    if rs == [] then path else RecordsPath(rs[1..], if rs[0].GatewayRec? then rs[0].path else path)
  }

  function SamplesPath(ss: seq<FlowSample>, path: AsPath): AsPath {
    if ss == [] then path else SamplesPath(ss[1..], RecordsPath(ss[0].records, path))
  }

  function HeadFields(s: FlowSample, f: Fields): Fields {
    f.(num := f.num[SamplesGenerated := s.sequence][DsClass := s.dsClass][DsIndex := s.dsIndex]
    [MeanSkipCount := s.meanSkip][SamplePool := s.pool][DropEvents := s.drops]
    [InputPortFormat := s.inFormat][InputPort := s.inPort][OutputPortFormat := s.outFormat][OutputPort := s.outPort])
  }

  function SampleFields(s: FlowSample, f: Fields): Fields
    requires SampleFits(s)
  {
    RecordsFields(s.records, HeadFields(s, f.(num := f.num[SampleType := if s.expanded then 3 else 1])))
  }

  function SamplesFields(ss: seq<FlowSample>, f: Fields): Fields
    requires SamplesFit(ss)
  {
    if ss == [] then f else SamplesFields(ss[1..], SampleFields(ss[0], f))
  }

  function DatagramFields(d: Datagram): Fields
    requires DatagramOk(d)
  {
    SamplesFields(d.samples,
      CLEARED.(addr := map[Agent := d.agent],
      num := map[DatagramVersion := 5, AgentSubId := d.subId, SequenceNo := d.sequence, SysUpTime := d.upTime]))
  }
}
