/** What the flow records consist of that are only printed (sFlow Version 5, section 5,
    and the structures for hosts, tunnels, 802.11, MPLS and applications), as lists of
    fields. No reader is used here. */
module Formats {
  import opened Xdr
  import opened SampleState

  type IpSize = n: nat | 1 <= n <= 14 witness 1

  /** The kinds of fields. Of a text the first `most` bytes are kept; a status is the number
      of a name; an IP header is a structure of words that starts with the packet length. */
  datatype Field =
    | U32 | U64 | Status | Octets(n: u32) | Text(most: nat) | LabelStack | IpHeader(words: IpSize) | Sampled

  /** A sampled packet: how it starts, its size, how much was stripped, and its first bytes. */
  datatype Packet = Packet(protocol: u32, size: u32, stripped: u32, bytes: seq<byte>)

  datatype Value =
    | N32(w: u32) | N64(hi: u32, lo: u32) | Run(run: seq<byte>) | Labelled(labels: seq<u32>)
    | IpWords(length: u32, others: seq<u32>) | Captured(packet: Packet)

  const STATUSES: nat := 11

  predicate Matches(f: Field, v: Value) {
    match f
    case U32 => v.N32?
    case U64 => v.N64?
    case Status => v.N32? && v.w < STATUSES
    case Octets(n) => v.Run? && |v.run| == n
    case Text(_) => v.Run? && |v.run| < 0x1_0000_0000
    case LabelStack => v.Labelled? && |v.labels| < 0x4000_0000
    case IpHeader(words) => v.IpWords? && 1 + |v.others| == words
    case Sampled => v.Captured? && |v.packet.bytes| < 0x1_0000_0000
  }

  predicate AllMatch(fs: seq<Field>, vs: seq<Value>) {
    |fs| == |vs| && forall i :: 0 <= i < |fs| ==> Matches(fs[i], vs[i])
  }

  const ETHERNET: seq<Field> := [U32, Octets(6), Octets(6), U32]
  const SOCKET4: seq<Field> := [U32, U32, U32, U32, U32]
  const SOCKET6: seq<Field> := [U32, Octets(16), Octets(16), U32, U32]
  const OPERATION: seq<Field> := [Text(31), Text(31), Text(254), Text(31), U64, U64, Status, U32]

  /** The fields of the record with a tag; none for any tag that is not one of these. */
  function Format(tag: u32): seq<Field> {
    match tag
    case 2 => ETHERNET
    case 3 => [IpHeader(8)]
    case 4 => [IpHeader(14)]
    case 1008 => [Text(99), U32, U32]
    case 1009 => [Text(99), U32, U32]
    case 1010 => [Text(99), U32]
    case 1011 => [U32]
    case 1012 => [LabelStack]
    case 1013 => [U32, Sampled]
    case 1014 => [Text(255), Octets(6), U32, U32, U64, U32, U32, U32]
    case 1015 => [Text(255), Octets(6), U32, U32, U32, U32, U32, U64, U32]
    case 1020 => [U32, U32]
    case 1021 => ETHERNET
    case 1022 => ETHERNET
    case 1023 => [IpHeader(8)]
    case 1024 => [IpHeader(8)]
    case 1025 => [IpHeader(14)]
    case 1026 => [IpHeader(14)]
    case 1027 => [U32]
    case 1028 => [U32]
    case 1029 => [U32]
    case 1030 => [U32]
    case 2100 => SOCKET4
    case 2101 => SOCKET6
    case 2102 => SOCKET4
    case 2103 => SOCKET6
    case 2200 => [U32, U32, Text(254), U32, U32, U32, U32]
    case 2201 => [U32, U32, Text(254), Text(63), Text(254), Text(127), Text(31), Text(63), U64, U32, U32]
    case 2202 => OPERATION
    case 2203 => [Text(31), Text(31), Text(254)]
    case 2204 => [Text(63)]
    case 2205 => [Text(63)]
    case 2206 => [U32, U32, Text(254), Text(63), Text(254), Text(127), Text(63), Text(31), Text(63), U64, U64, U32, U32]
    case _ => []
  }

  /** The bit that such a record leaves behind. */
  function FlagsOf(tag: u32): set<Flag> {
    match tag
    case 1008 => {HasMplsTunnel}
    case 1009 => {HasMplsVc}
    case 1010 => {HasMplsFtn}
    case 1011 => {HasMplsLdpFec}
    case 1012 => {HasVlanTunnel}
    case _ => {}
  }

  /** The first `most` bytes of a text. */
  function Prefix(text: seq<byte>, most: nat): seq<byte> {
    if |text| <= most then text else text[..most]
  }

  /** The bytes with their padding to whole words. */
  function Padded(bytes: seq<byte>): seq<byte> {
    bytes + seq(4 * Quads(|bytes|) - |bytes|, _ => 0)
  }

  /** The header protocols that are defined; any other one ends the program. */
  predicate Defined(p: Packet) {
    1 <= p.protocol <= 17
  }

  function ByteOf(bytes: seq<byte>, i: nat): byte {
    if i < |bytes| then bytes[i] else 0
  }

  /** The VLAN of a packet: an Ethernet header whose bytes 12 and 13 are the type of an
      802.1Q tag has it in the last twelve bits of bytes 14 and 15. */
  function VlanOf(p: Packet): seq<u32> {
    if p.protocol == 1 && |p.bytes| >= 14 && p.bytes[12] == 0x81 && p.bytes[13] == 0x00
    then [(ByteOf(p.bytes, 14) % 16) * 256 + ByteOf(p.bytes, 15)] else []
  }

  // What is printed of a field and what it leaves in the sample structure.

  function PacketLines(p: Packet): seq<Event>
    requires |p.bytes| < 0x1_0000_0000
  {
    [Title(HeaderRecord), ShowNum(HeaderProtocol, p.protocol), ShowNum(SampledPacketSize, p.size),
     ShowNum(StrippedBytes, p.stripped), ShowNum(HeaderLen, |p.bytes|), HeaderBytes(p.bytes)]
    + (if VlanOf(p) == [] then [] else [DecodedVlan(VlanOf(p)[0])])
  }

  function PacketFields(p: Packet, f: Fields): Fields
    requires |p.bytes| < 0x1_0000_0000
  {
    var num := f.num[HeaderProtocol := p.protocol][SampledPacketSize := p.size][StrippedBytes := p.stripped]
      [HeaderLen := |p.bytes|];
    f.(num := if VlanOf(p) == [] then num else num[InVlan := VlanOf(p)[0]],
    str := f.str[SampledHeader := Padded(p.bytes)])
  }

  function IpLines(length: u32, others: seq<u32>): seq<Event> {
    [ShowNum(SampledPacketSize, length), FlatBytes(Bytes([length] + others))]
  }

  function IpFields(length: u32, others: seq<u32>, f: Fields): Fields
    requires |others| < 14
  {
    f.(num := f.num[HeaderLen := 4 + 4 * |others|][SampledPacketSize := length],
    str := f.str[SampledHeader := Bytes([length] + others)])
  }

  function ValueLines(f: Field, v: Value): seq<Event>
    requires Matches(f, v)
  {
    match v
    case N32(w) => [Flat32(w)]
    case N64(hi, lo) => [Flat64(hi, lo)]
    case Run(run) =>
      if f.Octets? then [FlatBytes(run)]
      else if run == [] then [] else [FlatBytes(CString(Prefix(run, f.most)))]
    case Labelled(labels) => if labels == [] then [] else [Labels(VlanTunnel, labels)]
    case IpWords(length, others) => IpLines(length, others)
    case Captured(packet) => PacketLines(packet)
  }

  function ValueFields(f: Field, v: Value, x: Fields): Fields
    requires Matches(f, v)
  {
    match v
    case IpWords(length, others) => IpFields(length, others, x)
    case Captured(packet) => PacketFields(packet, x)
    case _ => x
  }

  function ValuesLines(fs: seq<Field>, vs: seq<Value>): seq<Event>
    requires AllMatch(fs, vs)
  {
    if fs == [] then [] else ValueLines(fs[0], vs[0]) + ValuesLines(fs[1..], vs[1..])
  }

  function ValuesFields(fs: seq<Field>, vs: seq<Value>, x: Fields): Fields
    requires AllMatch(fs, vs)
  {
    if fs == [] then x else ValuesFields(fs[1..], vs[1..], ValueFields(fs[0], vs[0], x))
  }

  predicate IsDefined(v: Value) {
    v.Captured? ==> Defined(v.packet)
  }

  predicate ValuesDefined(vs: seq<Value>) {
    forall v :: v in vs ==> IsDefined(v)
  }
}
