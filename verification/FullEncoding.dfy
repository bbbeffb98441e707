/** Datagrams of every version with samples of every kind, in bytes, and what decoding
    them should leave. */
module FullEncoding {
  import opened Xdr
  import opened SampleState
  import opened ByteFields
  import E = Encoding
  import O = OldEncoding
  import N = CounterEncoding

  /** Flow and counter samples of version 5 and of the older versions, and samples of a
      type that version 5 does not know. */
  datatype Sample =
    | Flow(flow: E.FlowSample)
    | Counters(counters: N.CounterSample)
    | Unknown(kind: u32, body: seq<byte>)
    | OldFlow(oldFlow: O.OldSample)
    | OldCounters(oldCounters: N.OldCounters)

  datatype Datagram = Datagram(
    version: u32, agent: Address, subId: u32, sequence: u32, upTime: u32, samples: seq<Sample>)

  predicate SampleOk(version: u32, s: Sample) {
    match s
    case Flow(flow) => version == 5 && E.SampleFits(flow)
    case Counters(counters) => version == 5 && N.SampleOk(counters) && |N.PutSampleBody(counters)| < 0x1_0000_0000
    case Unknown(kind, body) => version == 5 && (kind == 0 || kind > 4) && |body| < 0x1_0000_0000
    case OldFlow(legacy) => version != 5 && O.OldSampleOk(version, legacy)
    case OldCounters(legacy) => version != 5 && N.OldCountersOk(legacy)
  }

  /** What is there in words. */
  function FlowWords(version: u32, s: Sample): seq<u32>
    requires SampleOk(version, s) && !s.Counters? && !s.OldCounters?
  {
    match s
    case Flow(flow) => E.PutSample(flow, [])
    case Unknown(kind, body) => E.Put(kind, E.PutStr(body, []))
    case OldFlow(legacy) => O.PutOldSample(version, legacy, [])
  }

  function PutSample(version: u32, s: Sample): seq<byte>
    requires SampleOk(version, s)
  {
    match s
    case Counters(counters) => Split(if counters.expanded then 4 else 2) + N.PutSample(counters)
    case OldCounters(legacy) => Split(2) + N.PutOldCounters(legacy)
    case _ => Bytes(FlowWords(version, s))
  }

  predicate SamplesOk(version: u32, ss: seq<Sample>) {
    forall s :: s in ss ==> SampleOk(version, s)
  }

  function PutSamples(version: u32, ss: seq<Sample>): seq<byte>
    requires SamplesOk(version, ss)
  {
    if ss == [] then [] else
      assert ss[0] in ss;
      PutSample(version, ss[0]) + PutSamples(version, ss[1..])
  }

  predicate DatagramOk(d: Datagram) {
    && (d.version == 2 || d.version == 4 || d.version == 5) && E.AddressOk(d.agent)
    && SamplesOk(d.version, d.samples) && |d.samples| < 0x1_0000_0000
  }

  /** Only version 5 has an identification of the sub-agent. */
  function PutHead(d: Datagram, tail: seq<u32>): seq<u32> {
    var rest := E.Put(d.sequence, E.Put(d.upTime, tail));
    E.Put(d.version, E.PutAddr(d.agent, if d.version == 5 then E.Put(d.subId, rest) else rest))
  }

  function Encode(d: Datagram): seq<byte>
    requires DatagramOk(d)
  {
    Bytes(PutHead(d, E.Put(|d.samples|, []))) + PutSamples(d.version, d.samples)
  }

  /** The header protocol of every sampled packet is defined. */
  predicate SampleDefined(s: Sample) {
    match s
    case Flow(flow) => E.RecordsDefined(flow.records)
    case OldFlow(legacy) => O.DataDefined(legacy.data)
    case _ => true
  }

  predicate SamplesDefined(ss: seq<Sample>) {
    forall s :: s in ss ==> SampleDefined(s)
  }

  // What decoding leaves.

  function SampleLines(version: u32, s: Sample): seq<Event>
    requires SampleOk(version, s)
  {
    match s
    case Flow(flow) => E.SampleLines(flow)
    case Counters(counters) =>
      [SampleTag(if counters.expanded then 4 else 2)] + N.SampleLines(counters) + [EndSample]
    case Unknown(kind, body) => [SampleTag(kind), Skipped(true, kind, |body|), EndSample]
    case OldFlow(legacy) => O.OldSampleLines(version, legacy)
    case OldCounters(legacy) => [SampleTag(2)] + N.OldCountersLines(legacy) + [EndSample]
  }

  function Typed(kind: u32, f: Fields): Fields {
    f.(num := f.num[SampleType := kind])
  }

  function SampleFields(version: u32, s: Sample, f: Fields): Fields
    requires SampleOk(version, s)
  {
    match s
    case Flow(flow) => E.SampleFields(flow, f)
    case Counters(counters) => N.SampleFields(counters, Typed(if counters.expanded then 4 else 2, f))
    case Unknown(kind, _) => Typed(kind, f)
    case OldFlow(legacy) => O.OldSampleFields(version, legacy, f)
    case OldCounters(legacy) => N.OldCountersFields(legacy, Typed(2, f))
  }

  /** The AS path of the latest gateway record. */
  function SamplePath(s: Sample, path: AsPath): AsPath {
    match s
    case Flow(flow) => E.RecordsPath(flow.records, path)
    case OldFlow(legacy) => O.ExtendedsPath(legacy.extendeds, path)
    case _ => path
  }

  function SamplesLines(version: u32, ss: seq<Sample>): seq<Event>
    requires SamplesOk(version, ss)
  {
    if ss == [] then [] else SampleLines(version, ss[0]) + SamplesLines(version, ss[1..])
  }

  function SamplesFields(version: u32, ss: seq<Sample>, f: Fields): Fields
    requires SamplesOk(version, ss)
  {
    if ss == [] then f else SamplesFields(version, ss[1..], SampleFields(version, ss[0], f))
  }

  function SamplesPath(ss: seq<Sample>, path: AsPath): AsPath {
    if ss == [] then path else SamplesPath(ss[1..], SamplePath(ss[0], path))
  }

  function HeadLines(d: Datagram): seq<Event>
    requires |d.samples| < 0x1_0000_0000
  {
    [ShowNum(DatagramVersion, d.version)] + (if d.version == 5 then [ShowNum(AgentSubId, d.subId)] else [])
    + [ShowAddress(Agent, d.agent), ShowNum(SequenceNo, d.sequence), ShowNum(SysUpTime, d.upTime),
       SamplesInPacket(|d.samples|)]
  }

  function HeadFields(d: Datagram): Fields {
    var num := map[DatagramVersion := d.version, SequenceNo := d.sequence, SysUpTime := d.upTime];
    CLEARED.(addr := map[Agent := d.agent], num := if d.version == 5 then num[AgentSubId := d.subId] else num)
  }

  function DatagramLines(d: Datagram): seq<Event>
    requires DatagramOk(d)
  {
    HeadLines(d) + SamplesLines(d.version, d.samples)
  }

  function DatagramFields(d: Datagram): Fields
    requires DatagramOk(d)
  {
    SamplesFields(d.version, d.samples, HeadFields(d))
  }
}
