/** Counter samples as an agent writes them: the records field by field (sFlow Version 5,
    section 5.3, the structures for hosts, 802.11, applications and virtual machines, and
    those of enterprise 40842). No reader is used here. */
module CounterEncoding {
  import opened Xdr
  import opened SampleState
  import opened PerEntry
  import opened ByteFields
  import opened EntryTrip

  // Records that are plain structures.

  /** A group of fields of one kind; a run of bytes and a counted string are padded to words. */
  datatype Field = U16s(n: nat) | U32s(n: nat) | U64s(n: nat) | Octets(n: nat) | Text

  datatype Value = Shorts(shorts: seq<u16>) | Ints(ints: seq<u32>) | Wides(wides: seq<u64>) | Run(run: seq<byte>)

  predicate Matches(f: Field, v: Value) {
    match f
    case U16s(n) => v.Shorts? && |v.shorts| == n
    case U32s(n) => v.Ints? && |v.ints| == n
    case U64s(n) => v.Wides? && |v.wides| == n
    case Octets(n) => v.Run? && |v.run| == n
    case Text => v.Run? && |v.run| < 0xFFFF_0000
  }

  predicate AllMatch(fs: seq<Field>, vs: seq<Value>) {
    |fs| == |vs| && forall i :: 0 <= i < |fs| ==> Matches(fs[i], vs[i])
  }

  function Padded(bs: seq<byte>): (s: seq<byte>)
    ensures |s| == 4 * Quads(|bs|)
  {
    bs + seq(4 * Quads(|bs|) - |bs|, _ => 0)
  }

  function PutText(text: seq<byte>): (s: seq<byte>)
    requires |text| < 0xFFFF_0000
    ensures |s| == 4 + 4 * Quads(|text|)
  {
    Split(|text|) + Padded(text)
  }

  function PutValue(f: Field, v: Value): seq<byte>
    requires Matches(f, v)
  {
    match v
    case Shorts(shorts) => Halves(shorts)
    case Ints(ints) => Bytes(ints)
    case Wides(wides) => Longs(wides)
    case Run(run) => if f.Text? then PutText(run) else Padded(run)
  }

  function PutValues(fs: seq<Field>, vs: seq<Value>): seq<byte>
    requires AllMatch(fs, vs)
  {
    if fs == [] then [] else PutValue(fs[0], vs[0]) + PutValues(fs[1..], vs[1..])
  }

  const A10_FORMATS: u32 := 167288832
  const NVIDIA_GPU: u32 := 23359489

  /** One rate has a mean, a variance and three extremes; a set of them starts with a sequence
      number, the number of points and the seconds. */
  function Rates(n: nat): seq<Field> {
    [U32s(1), U16s(2), U32s(5 * n)]
  }

  /** The formats of enterprise 40842 that are plain structures. */
  function A10Format(format: nat): seq<Field> {
    match format
    case 67 => [U64s(14), U16s(4), U32s(10)]
    case 68 => [U32s(15), U16s(4)]
    case 80 => Rates(13) + Rates(5) + Rates(4) + Rates(5)
    case 81 => Rates(13)
    case 82 => Rates(5)
    case 83 => Rates(4)
    case 84 => Rates(5)
    case _ => []
  }

  /** The fields of the structure with a tag; none for any tag that is not one of these. The
      structure of JMX got a third group later. */
  function Format(tag: u32, groups: nat): seq<Field> {
    match tag
    case 2 => [U32s(13)]
    case 3 => [U32s(18)]
    case 4 => [U32s(1), U64s(1), U32s(1), U64s(1), U32s(5), U64s(1), U32s(1), U64s(3)]
    case 5 => [U32s(1), U64s(1), U32s(4)]
    case 6 => [U32s(20)]
    case 7 => [Octets(6), Octets(6), U32s(2), U32s(8)]
    case 1002 => [U32s(3)]
    case 2000 => [Text, Octets(16), U32s(2), Text]
    case 2002 => [U32s(2)]
    case 2003 => [U32s(17)]
    case 2004 => [U64s(7), U32s(4)]
    case 2005 => [U64s(2), U32s(2), U64s(1), U32s(2), U64s(1), U32s(1)]
    case 2006 => [U64s(1), U32s(3), U64s(1), U32s(3)]
    case 2100 => [U32s(2), U64s(2), U32s(1)]
    case 2101 => [U32s(3)]
    case 2102 => [U64s(2)]
    case 2103 => [U64s(3), U32s(1), U64s(1), U32s(1), U64s(1), U32s(1)]
    case 2104 => [U64s(1), U32s(3), U64s(1), U32s(3)]
    case 2105 => [Text, Text, Text]
    case 2106 => if groups == 2 then [U64s(8), U32s(9)] else [U64s(8), U32s(9), U32s(2)]
    case 2200 => [U32s(22), U64s(2), U32s(5), U64s(1), U32s(3)]
    case 2201 => [U32s(15)]
    case 2202 => [Text, U32s(11)]
    case 2203 => [U32s(2), U64s(2), U32s(4)]
    case 2204 => [U32s(27), U64s(4)]
    case 2205 => [U32s(23)]
    case 2206 => [U32s(5)]
    case _ =>
      if tag == NVIDIA_GPU then [U32s(4), U64s(2), U32s(4)]
      else if tag >= A10_FORMATS then A10Format(tag - A10_FORMATS) else []
  }

  // Records with lists, and those whose fields are looked up.

  /** The MAC addresses of an adaptor are padded to words. */
  datatype Adaptor = Adaptor(ifIndex: u32, macs: seq<seq<byte>>)

  predicate AdaptorOk(a: Adaptor) {
    |a.macs| < 0x1_0000_0000 && forall m :: m in a.macs ==> |m| == 6
  }

  function PutMacs(macs: seq<seq<byte>>): seq<byte> {
    if macs == [] then [] else Padded(macs[0]) + PutMacs(macs[1..])
  }

  function PutAdaptor(a: Adaptor): seq<byte>
    requires AdaptorOk(a)
  {
    Split(a.ifIndex) + (Split(|a.macs|) + PutMacs(a.macs))
  }

  predicate AdaptorsOk(adaptors: seq<Adaptor>) {
    forall a :: a in adaptors ==> AdaptorOk(a)
  }

  function PutAdaptors(adaptors: seq<Adaptor>): seq<byte>
    requires AdaptorsOk(adaptors)
  {
    if adaptors == [] then [] else PutAdaptor(adaptors[0]) + PutAdaptors(adaptors[1..])
  }

  /** A key and a counter. */
  datatype Pair = Pair(key: u32, value: u64)

  function PutPairs(pairs: seq<Pair>): (s: seq<byte>)
    ensures |s| == 12 * |pairs|
  {
    if pairs == [] then [] else Split(pairs[0].key) + Long(pairs[0].value) + PutPairs(pairs[1..])
  }

  /** The common header of A10 entries, with the bytes behind its addresses. */
  datatype Common = Common(header: Header, srcFiller: seq<byte>, dstFiller: seq<byte>)

  predicate CommonOk(c: Common) {
    HeaderOk(c.header)
    && |c.header.src.bytes| + |c.srcFiller| == 16 && |c.header.dst.bytes| + |c.dstFiller| == 16
  }

  /** The limits and drops of one protocol or application: both of its first words have a name. */
  datatype Stat = Stat(protocol: u32, state: u32, numbers: seq<u32>)

  predicate StatOk(s: Stat) {
    s.protocol < 8 && s.state < 4 && |s.numbers| == 18
  }

  predicate StatsOk(stats: seq<Stat>) {
    forall s :: s in stats ==> StatOk(s)
  }

  function PutStat(s: Stat): seq<byte> {
    Split(s.protocol) + (Split(s.state) + Bytes(s.numbers))
  }

  function PutStats(stats: seq<Stat>): seq<byte> {
    if stats == [] then [] else PutStat(stats[0]) + PutStats(stats[1..])
  }

  function PutCounted(stats: seq<Stat>): seq<byte>
    requires |stats| < 0x1_0000_0000
  {
    Split(|stats|) + PutStats(stats)
  }

  datatype CounterRecord =
    | Structure(tag: u32, values: seq<Value>)
    | Adaptors(adaptors: seq<Adaptor>)
    | Packed(packedTag: u32, uuid: seq<byte>, schema: u32, vnp: u32, pairs: seq<Pair>)
    | Table64(format64: nat, wides: seq<u64>)
    | Table32(format32: nat, ints: seq<u32>)
    | PerEntry(entry: EntryRecord)
    | EntryPort(portOf: Common, port: u32, appType: u32, numbers: seq<u32>)
    | EntryStats(statsOf: Common, protocols: seq<Stat>, applications: seq<Stat>)
    | EntryMap(source: byte, portType: byte, mapPort: u16, name: seq<byte>)
    | Skip(skippedTag: u32, body: seq<byte>)

  /** The formats of enterprise 40842 with as many 64-bit counters as the agent knows of. */
  const TABLES_64: set<nat> := {1, 3, 4, 9, 10, 21, 22, 23, 24, 25, 26, 27, 28, 29, 30, 31, 64}
  const TABLES_32: set<nat> := {65, 66}

  /** The per-entry formats. */
  function KindFormat(k: Kind): nat {
    match k
    case Http => 5
    case Dns => 6
    case L4 => 7
    case SslL4 => 11
    case Icmp => 12
    case Udp => 13
    case Tcp => 14
    case Other => 15
    case L4Ext => 16
  }

  const OTHER_FORMATS: set<nat> := {2, 8, 60, 3000}
  const ENTRY_FORMATS: set<nat> := {5, 6, 7, 11, 12, 13, 14, 15, 16}

  /** A tag that none of the records above has. */
  predicate NoReader(tag: u32) {
    && tag != 1 && tag != 1001 && tag != 2001 && Format(tag, 2) == []
    && (tag >= A10_FORMATS ==>
          var f: nat := tag - A10_FORMATS;
          f !in TABLES_64 && f !in TABLES_32 && f !in ENTRY_FORMATS && f !in OTHER_FORMATS)
  }

  /** Where the UUID ends: it has a final zero. */
  predicate UuidOk(uuid: seq<byte>) {
    |uuid| == 37 && exists i :: 0 <= i < 37 && uuid[i] == 0
  }

  predicate WholeUuid(uuid: seq<byte>) {
    |uuid| == 37 && uuid[36] == 0 && forall i :: 0 <= i < 36 ==> uuid[i] != 0
  }

  /** Pairs come only behind a UUID of 36 characters, and statistics only as far as there
      is room for them. */
  predicate RecordOk(r: CounterRecord) {
    match r
    case Structure(tag, values) => Format(tag, |values|) != [] && AllMatch(Format(tag, |values|), values)
    case Adaptors(adaptors) => |adaptors| < 0x1_0000_0000 && AdaptorsOk(adaptors)
    case Packed(tag, uuid, _, _, pairs) =>
      && (tag == 1 || tag == 1001 || tag == A10_FORMATS + 3000)
      && UuidOk(uuid) && (WholeUuid(uuid) || pairs == [])
    case Table64(format, wides) => format in TABLES_64 && 0 < |wides| < 8192
    case Table32(format, ints) => format in TABLES_32 && 0 < |ints| < 16384
    case PerEntry(e) => EntryOk(e)
    case EntryPort(c, _, _, numbers) => CommonOk(c) && |numbers| == 18
    case EntryStats(c, protocols, applications) =>
      CommonOk(c) && StatsOk(protocols) && StatsOk(applications) && |protocols| <= 4 && |applications| <= 3
    case EntryMap(_, portType, _, name) => portType <= 8 && |name| == 64
    case Skip(tag, body) => NoReader(tag) && |body| < 0xFFFF_0000
  }

  function Tag(r: CounterRecord): u32
    requires RecordOk(r)
  {
    match r
    case Structure(tag, _) => tag
    case Adaptors(_) => 2001
    case Packed(tag, _, _, _, _) => tag
    case Table64(format, _) => A10_FORMATS + format
    case Table32(format, _) => A10_FORMATS + format
    case PerEntry(e) => A10_FORMATS + KindFormat(e.kind)
    case EntryPort(_, _, _, _) => A10_FORMATS + 8
    case EntryStats(_, _, _) => A10_FORMATS + 2
    case EntryMap(_, _, _, _) => A10_FORMATS + 60
    case Skip(tag, _) => tag
  }

  function PutHeader(c: Common): (s: seq<byte>)
    requires CommonOk(c)
    ensures |s| == 48
  {
    PutCommon(c.header, c.srcFiller, c.dstFiller)
  }

  function PutStatistics(c: Common, protocols: seq<Stat>, applications: seq<Stat>): seq<byte>
    requires CommonOk(c) && |protocols| < 0x1_0000_0000 && |applications| < 0x1_0000_0000
  {
    PutHeader(c) + (PutCounted(protocols) + PutCounted(applications))
  }

  function PutBody(r: CounterRecord): seq<byte>
    requires RecordOk(r)
  {
    match r
    case Structure(tag, values) => PutValues(Format(tag, |values|), values)
    case Adaptors(adaptors) => Split(|adaptors|) + PutAdaptors(adaptors)
    case Packed(_, uuid, schema, vnp, pairs) => uuid + Split(schema) + Split(vnp) + PutPairs(pairs)
    case Table64(_, wides) => Longs(wides)
    case Table32(_, ints) => Bytes(ints)
    case PerEntry(e) => PutEntry(e)
    case EntryPort(c, port, appType, numbers) => PutHeader(c) + (Split(port) + Split(appType) + Bytes(numbers))
    case EntryStats(c, protocols, applications) => PutStatistics(c, protocols, applications)
    case EntryMap(source, portType, port, name) => [source, portType] + Half(port) + name
    case Skip(_, body) => Padded(body)
  }

  /** The length field: an unknown body counts without its padding. */
  function Length(r: CounterRecord): nat
    requires RecordOk(r)
  {
    if r.Skip? then |r.body| else |PutBody(r)|
  }

  predicate RecordFits(r: CounterRecord) {
    RecordOk(r) && |PutBody(r)| < 0xFFFF_0000
  }

  function PutRecord(r: CounterRecord): seq<byte>
    requires RecordFits(r)
  {
    Padding(r);
    Split(Tag(r)) + (Split(Length(r)) + PutBody(r))
  }

  lemma Padding(r: CounterRecord)
    requires RecordFits(r)
    ensures Length(r) < 0x1_0000_0000
  {
  }

  predicate RecordsFit(rs: seq<CounterRecord>) {
    forall r :: r in rs ==> RecordFits(r)
  }

  function PutRecords(rs: seq<CounterRecord>): seq<byte>
    requires RecordsFit(rs)
  {
    if rs == [] then [] else PutRecord(rs[0]) + PutRecords(rs[1..])
  }

  // Samples.

  datatype CounterSample = CounterSample(
    expanded: bool, sequence: u32, dsClass: u32, dsIndex: u32, records: seq<CounterRecord>)

  predicate SampleOk(s: CounterSample) {
    && RecordsFit(s.records) && |s.records| < 0x1_0000_0000
    && (!s.expanded ==> s.dsClass < 0x100 && s.dsIndex < 0x100_0000)
  }

  function PutSource(s: CounterSample): seq<byte>
    requires SampleOk(s)
  {
    if s.expanded then Split(s.dsClass) + Split(s.dsIndex) else Split(s.dsClass * 0x100_0000 + s.dsIndex)
  }

  function PutSampleBody(s: CounterSample): seq<byte>
    requires SampleOk(s)
  {
    Split(s.sequence) + (PutSource(s) + (Split(|s.records|) + PutRecords(s.records)))
  }

  /** A sample from its length on. */
  function PutSample(s: CounterSample): seq<byte>
    requires SampleOk(s) && |PutSampleBody(s)| < 0x1_0000_0000
  {
    Split(|PutSampleBody(s)|) + PutSampleBody(s)
  }

  // What a sample leaves behind: the VLAN of a VLAN record, and the lines.

  function VlanOf(r: CounterRecord): seq<u32>
    requires RecordOk(r)
  {
    if r.Structure? && r.tag == 5 then [r.values[0].ints[0]] else []
  }

  function RecordsFields(rs: seq<CounterRecord>, f: Fields): Fields
    requires RecordsFit(rs)
  {
    if rs == [] then f else
      assert rs[0] in rs;
      RecordsFields(rs[1..], if VlanOf(rs[0]) == [] then f else f.(num := f.num[InVlan := VlanOf(rs[0])[0]]))
  }

  function RecordsLines(rs: seq<CounterRecord>): seq<Event>
    requires RecordsFit(rs)
  {
    if rs == [] then [] else
      assert rs[0] in rs;
      [BlockTag(Tag(rs[0]))] + (if rs[0].Skip? then [Skipped(false, rs[0].skippedTag, |rs[0].body|)] else [])
      + RecordsLines(rs[1..])
  }

  function SampleFields(s: CounterSample, f: Fields): Fields
    requires SampleOk(s)
  {
    RecordsFields(s.records,
      f.(num := f.num[SamplesGenerated := s.sequence][DsClass := s.dsClass][DsIndex := s.dsIndex]))
  }

  function SampleLines(s: CounterSample): seq<Event>
    requires SampleOk(s)
  {
    [Title(CountersSampleLine), ShowNum(SamplesGenerated, s.sequence), SourceId(s.dsClass, s.dsIndex)]
    + RecordsLines(s.records)
  }

  // The iterations of the loops.

  function AdaptorsWork(adaptors: seq<Adaptor>): nat {
    if adaptors == [] then 0 else |adaptors[0].macs| + 1 + AdaptorsWork(adaptors[1..])
  }

  function RecordWork(r: CounterRecord): nat {
    match r
    case Adaptors(adaptors) => AdaptorsWork(adaptors)
    case Packed(_, _, _, _, pairs) => |pairs|
    case EntryStats(_, protocols, applications) => |protocols| + |applications|
    case _ => 0
  }

  function RecordsWork(rs: seq<CounterRecord>): nat {
    if rs == [] then 0 else RecordWork(rs[0]) + 1 + RecordsWork(rs[1..])
  }

  // The tables of enterprise 40842, on the side of the decoder.

  /** The 64-bit counters that the structure of a format has room for. */
  const FIELDS_64: map<nat, nat> := map[
    1 := 134, 3 := 124, 4 := 39, 9 := 34, 10 := 19, 21 := 104, 22 := 62, 23 := 28, 24 := 45, 25 := 10, 26 := 60,
    27 := 30, 28 := 14, 29 := 36, 30 := 99, 31 := 100, 64 := 5]

  const FIELDS_32: map<nat, nat> := map[65 := 256, 66 := 38]

  // Versions 2 and 4: one block of counters, of one of seven kinds (RFC 3176, section 4).

  const GENERIC: seq<Field> := [U32s(2), U64s(1), U32s(2), U64s(1), U32s(6), U64s(1), U32s(6)]

  /** What follows the generic counters of an interface. */
  function SpecificFormat(block: u32): seq<Field> {
    match block
    case 2 => [U32s(13)]
    case 3 => [U32s(18)]
    case 5 => [U32s(1), U64s(1), U32s(1), U64s(1), U32s(5), U64s(1), U32s(1), U64s(3)]
    case _ => []
  }

  const VLAN_BLOCK: seq<Field> := [U32s(1), U64s(1), U32s(4)]

  function BlockFormat(block: u32): seq<Field> {
    if block == 7 then VLAN_BLOCK else GENERIC + SpecificFormat(block)
  }

  datatype OldCounters = OldCounters(
    sequence: u32, dsClass: u32, dsIndex: u32, interval: u32, block: u32, values: seq<Value>)

  predicate OldCountersOk(s: OldCounters) {
    && s.dsClass < 0x100 && s.dsIndex < 0x100_0000 && 1 <= s.block <= 7
    && AllMatch(BlockFormat(s.block), s.values)
  }

  /** A sample behind its type. */
  function PutOldCounters(s: OldCounters): seq<byte>
    requires OldCountersOk(s)
  {
    Split(s.sequence) + (Split(s.dsClass * 0x100_0000 + s.dsIndex) + (Split(s.interval) + (Split(s.block)
      + PutValues(BlockFormat(s.block), s.values))))
  }

  function OldCountersFields(s: OldCounters, f: Fields): Fields
    requires OldCountersOk(s)
  {
    var num := f.num[SamplesGenerated := s.sequence][DsClass := s.dsClass][DsIndex := s.dsIndex]
      [StatsSamplingInterval := s.interval][CounterBlockVersion := s.block];
    f.(num := if s.block == 7 then num[InVlan := s.values[0].ints[0]] else num)
  }

  function OldCountersLines(s: OldCounters): seq<Event> {
    [Title(CountersSampleLine), ShowNum(SamplesGenerated, s.sequence), SourceId(s.dsClass, s.dsIndex),
     ShowNum(StatsSamplingInterval, s.interval), ShowNum(CounterBlockVersion, s.block)]
  }
}
