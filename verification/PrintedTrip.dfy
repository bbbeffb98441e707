/** Decoding the encoding of a sampled packet and of the records that are only printed. */
module PrintedTrip {
  import opened Xdr
  import opened SampleState
  import opened Reader
  import opened Records
  import opened Formats
  import opened Encoding
  import opened RoundTrip

  // A sampled packet.

  /** The states in front of the bytes, and behind them. */
  function PacketHead(p: Packet, x: St): St
    requires |p.bytes| < 0x1_0000_0000
  {
    var y := Show(HeaderProtocol, Store(HeaderProtocol, p.protocol, Line(Title(HeaderRecord), x)));
    var z := Show(SampledPacketSize, Store(SampledPacketSize, p.size, y));
    var w := Show(StrippedBytes, Store(StrippedBytes, p.stripped, z));
    Show(HeaderLen, Store(HeaderLen, |p.bytes|, w))
  }

  function PacketBytes(p: Packet, y: St): St {
    Line(HeaderBytes(p.bytes), StoreStr(SampledHeader, Padded(p.bytes), y))
  }

  lemma PacketVersion(p: Packet, x: St)
    requires |p.bytes| < 0x1_0000_0000
    ensures var y := Show(HeaderProtocol, Store(HeaderProtocol, p.protocol, Line(Title(HeaderRecord), x)));
            Version(Show(SampledPacketSize, Store(SampledPacketSize, p.size, y))) == Version(x)
    ensures Num(PacketHead(p, x).f, HeaderLen) == |p.bytes|
  {
  }

  lemma HeaderBytesAt(p: Packet, t: seq<u32>, y: St)
    requires |p.bytes| < 0x1_0000_0000 && Num(y.f, HeaderLen) == |p.bytes|
    ensures ReadHeaderBytes(WithRest(PutAll(Pack(p.bytes), t), y)) == Out(Fine, WithRest(t, PacketBytes(p, y)))
  {
    PackPads(p.bytes);
    BytesOfPack(p.bytes);
    hide Get, WithRest, StoreStr, Line, Put, PutAll, Pack, Bytes, Num, Quads;
    FieldsAt(PutAll(Pack(p.bytes), t), y);
    GetsAt();
    StoresAt();
  }

  lemma FieldsAt(t: seq<u32>, x: St)
    ensures WithRest(t, x).f == x.f
  {
  }

  function PacketRead(p: Packet, x: St): Out
    requires |p.bytes| < 0x1_0000_0000
  {
    DecodeHeader(PacketBytes(p, PacketHead(p, x)))
  }

  lemma DecodeHeaderAt(t: seq<u32>, x: St)
    ensures var o := DecodeHeader(x); DecodeHeader(WithRest(t, x)) == Out(o.sig, WithRest(t, o.st))
  {
    hide TaggedVlan;
  }

  lemma PacketAt(p: Packet, t: seq<u32>, x: St)
    requires |p.bytes| < 0x1_0000_0000 && Version(x) == 5
    ensures var o := PacketRead(p, x);
            SampledPacket(WithRest(PutPacket(p, t), x)) == Out(o.sig, WithRest(t, o.st))
  {
    PacketVersion(p, x);
    hide Read, ReadHeaderBytes, DecodeHeader, WithRest, Store, Put, PutAll, Pack, Line, Show, Version, PacketBytes, Num;
    ReadsAt();
    StoresAt();
    var y := Show(HeaderProtocol, Store(HeaderProtocol, p.protocol, Line(Title(HeaderRecord), x)));
    var z := Show(SampledPacketSize, Store(SampledPacketSize, p.size, y));
    AtVersion(Put(p.stripped, PutStr(p.bytes, t)), z);
    HeaderBytesAt(p, t, PacketHead(p, x));
    DecodeHeaderAt(t, PacketBytes(p, PacketHead(p, x)));
  }

  lemma TwelveBits(hi: byte, lo: byte)
    ensures ((hi as int) * 256 + lo as int) % 4096 == (hi % 16) * 256 + lo
  {
  }

  lemma TagRead(p: Packet)
    requires |p.bytes| < 0x1_0000_0000 && p.protocol == 1
    ensures TaggedVlan(Padded(p.bytes), |p.bytes|) == if VlanOf(p) == [] then -1 else VlanOf(p)[0]
  {
    if VlanOf(p) != [] {
      TwelveBits(Padded(p.bytes)[14], Padded(p.bytes)[15]);
    }
  }

  function VlanStored(p: Packet, x: St): St {
    if VlanOf(p) == [] then x else Line(DecodedVlan(VlanOf(p)[0]), Store(InVlan, VlanOf(p)[0], x))
  }

  /** The branch on the protocol finds the VLAN, and ends the program exactly for a protocol
      that is not defined. */
  lemma HeaderDecoded(p: Packet, x: St)
    requires |p.bytes| < 0x1_0000_0000
    requires Num(x.f, HeaderProtocol) == p.protocol && Num(x.f, HeaderLen) == |p.bytes|
    requires Str(x.f, SampledHeader) == Padded(p.bytes)
    ensures DecodeHeader(x) == if Defined(p) then Out(Fine, VlanStored(p, x)) else Out(Exit(-12), x)
  {
    hide Padded, TaggedVlan;
    if p.protocol == 1 {
      TagRead(p);
    }
  }

  lemma PacketStored(p: Packet, x: St)
    requires |p.bytes| < 0x1_0000_0000
    ensures var y := PacketBytes(p, PacketHead(p, x));
            && Num(y.f, HeaderProtocol) == p.protocol && Num(y.f, HeaderLen) == |p.bytes|
            && Str(y.f, SampledHeader) == Padded(p.bytes)
            && VlanStored(p, y) == St(x.rest, PacketFields(p, x.f), x.path, x.log + PacketLines(p), x.work)
  {
    hide Padded;
    var y := PacketBytes(p, PacketHead(p, x));
    assert VlanStored(p, y).log == x.log + PacketLines(p);
    assert PacketFields(p, x.f).flags == x.f.flags;
  }

  lemma PacketAfter(p: Packet, x: St)
    requires |p.bytes| < 0x1_0000_0000
    ensures Defined(p) ==>
              PacketRead(p, x) == Out(Fine, St(x.rest, PacketFields(p, x.f), x.path, x.log + PacketLines(p), x.work))
    ensures !Defined(p) ==> PacketRead(p, x).sig == Exit(-12)
  {
    hide DecodeHeader, PacketBytes, PacketHead, Padded, VlanStored, PacketFields, PacketLines;
    PacketStored(p, x);
    HeaderDecoded(p, PacketBytes(p, PacketHead(p, x)));
  }

  // The records that are only printed.

  /** The part of a record that reads a field. */
  function PartOf(f: Field): Part {
    match f
    case U32 => W
    case U64 => D
    case Status => Part.Status
    case Octets(n) => B(n)
    case Text(most) => S(most + 1)
    case LabelStack => Stack(VlanTunnel)
    case IpHeader(words) => IpStruct(4 * words)
    case Sampled => Part.Packet
  }

  /** The state behind a field. */
  function ValueAfter(f: Field, v: Value, x: St): St
    requires Matches(f, v)
  {
    St(x.rest, ValueFields(f, v, x.f), x.path, x.log + ValueLines(f, v), x.work)
  }

  lemma NumberAt(f: Field, v: Value, t: seq<u32>, x: St)
    requires Matches(f, v) && (v.N32? || v.N64?)
    ensures ReadPart(PartOf(f), WithRest(PutValue(f, v, t), x)) == Out(Fine, WithRest(t, ValueAfter(f, v, x)))
  {
    hide Get, Put, WithRest, SampledPacket;
    GetsAt();
    StoresAt();
  }

  lemma OctetsAt(run: seq<byte>, t: seq<u32>, x: St)
    ensures NextBytes(|run|, WithRest(PutAll(Pack(run), t), x)) == Out(Fine, WithRest(t, Line(FlatBytes(run), x)))
  {
    BytesOfPack(run);
    hide Get, WithRest, Line, PutAll, Pack, Bytes;
    GetsAt();
    StoresAt();
  }

  lemma TextAt(room: BufLen, run: seq<byte>, t: seq<u32>, x: St)
    requires |run| < 0x1_0000_0000
    ensures NextString(room, WithRest(PutStr(run, t), x))
         == Out(Fine, WithRest(t, if run == [] then x else Line(FlatBytes(CString(Prefix(run, room - 1))), x)))
  {
    BytesOfPack(run);
    KeptPrefix(run, Bytes(Pack(run)), room);
    hide Kept, Prefix, Get, WithRest, Line, Put, PutAll, Pack, Bytes, CString;
    GetsAt();
    StoresAt();
  }

  /** The states of an IP structure after its words and after its lines. */
  function IpStored(length: u32, others: seq<u32>, x: St): St
    requires |others| < 14
  {
    var y := Store(HeaderLen, 4 + 4 * |others|, x);
    StoreStr(SampledHeader, Bytes([length] + others), Store(SampledPacketSize, length, y))
  }

  function IpRead(length: u32, others: seq<u32>, x: St): St
    requires |others| < 14
  {
    Line(FlatBytes(Bytes([length] + others)), Show(SampledPacketSize, IpStored(length, others, x)))
  }

  lemma IpAt(length: u32, others: seq<u32>, t: seq<u32>, x: St)
    requires |others| < 14
    ensures ReadIpStruct(4 + 4 * |others|, WithRest(PutAll([length] + others, t), x))
         == Out(Fine, WithRest(t, IpRead(length, others, x)))
  {
    var ws := [length] + others;
    assert Bytes(ws)[..4 * |ws|] == Bytes(ws);
    hide Get, WithRest, Store, StoreStr, Line, Show, PutAll, Bytes;
    GetsAt();
    StoresAt();
  }

  lemma IpAfter(length: u32, others: seq<u32>, x: St)
    requires |others| < 14
    ensures IpRead(length, others, x)
         == St(x.rest, IpFields(length, others, x.f), x.path, x.log + IpLines(length, others), x.work)
  {
    hide Bytes;
    assert IpRead(length, others, x).log == x.log + IpLines(length, others);
  }

  lemma LineAfter(x: St)
    ensures forall e: Event {:trigger Line(e, x)} :: Line(e, x) == St(x.rest, x.f, x.path, x.log + [e], x.work)
    ensures x == St(x.rest, x.f, x.path, x.log + [], x.work)
  {
    assert x.log + [] == x.log;
  }

  lemma RunAt(f: Field, v: Value, t: seq<u32>, x: St)
    requires Matches(f, v) && v.Run?
    ensures ReadPart(PartOf(f), WithRest(PutValue(f, v, t), x)) == Out(Fine, WithRest(t, ValueAfter(f, v, x)))
  {
    hide NextBytes, NextString, WithRest, Line, PutAll, PutStr, Pack, Prefix, CString, SampledPacket;
    LineAfter(x);
    if f.Octets? {
      OctetsAt(v.run, t, x);
    } else {
      TextAt(f.most + 1, v.run, t, x);
    }
  }

  lemma LabelsAt(f: Field, v: Value, t: seq<u32>, x: St)
    requires Matches(f, v) && v.Labelled?
    ensures ReadPart(PartOf(f), WithRest(PutValue(f, v, t), x)) == Out(Fine, WithRest(t, ValueAfter(f, v, x)))
  {
    hide ReadStack, WithRest, Line, PutList, SampledPacket;
    LineAfter(x);
    ReadStackAt(VlanTunnel, v.labels, t, x);
  }

  lemma IpPartAt(f: Field, v: Value, t: seq<u32>, x: St)
    requires Matches(f, v) && v.IpWords?
    ensures ReadPart(PartOf(f), WithRest(PutValue(f, v, t), x)) == Out(Fine, WithRest(t, ValueAfter(f, v, x)))
  {
    hide ReadIpStruct, WithRest, PutAll, IpRead, IpFields, IpLines, SampledPacket;
    IpAt(v.length, v.others, t, x);
    IpAfter(v.length, v.others, x);
  }

  lemma SampledAt(f: Field, v: Value, t: seq<u32>, x: St)
    requires Matches(f, v) && v.Captured? && Version(x) == 5
    ensures Defined(v.packet) ==>
              ReadPart(PartOf(f), WithRest(PutValue(f, v, t), x)) == Out(Fine, WithRest(t, ValueAfter(f, v, x)))
    ensures !Defined(v.packet) ==> ReadPart(PartOf(f), WithRest(PutValue(f, v, t), x)).sig == Exit(-12)
  {
    hide SampledPacket, WithRest, PutPacket, PacketRead, PacketFields, PacketLines;
    PacketAt(v.packet, t, x);
    PacketAfter(v.packet, x);
  }

  lemma PartAt(f: Field, v: Value, t: seq<u32>, x: St)
    requires Matches(f, v) && Version(x) == 5
    ensures IsDefined(v) ==>
              ReadPart(PartOf(f), WithRest(PutValue(f, v, t), x)) == Out(Fine, WithRest(t, ValueAfter(f, v, x)))
    ensures !IsDefined(v) ==> ReadPart(PartOf(f), WithRest(PutValue(f, v, t), x)).sig == Exit(-12)
  {
    hide ReadPart, PartOf, WithRest, PutValue, ValueAfter;
    match v
    case N32(_) => NumberAt(f, v, t, x);
    case N64(_, _) => NumberAt(f, v, t, x);
    case Run(_) => RunAt(f, v, t, x);
    case Labelled(_) => LabelsAt(f, v, t, x);
    case IpWords(_, _) => IpPartAt(f, v, t, x);
    case Captured(_) => SampledAt(f, v, t, x);
  }

  // Lists of fields.

  function PartsOf(fs: seq<Field>): (ps: seq<Part>)
    ensures |ps| == |fs|
    ensures forall i :: 0 <= i < |fs| ==> ps[i] == PartOf(fs[i])
  {
    seq(|fs|, i requires 0 <= i < |fs| => PartOf(fs[i]))
  }

  lemma NextPart(fs: seq<Field>, qs: seq<Part>)
    requires fs != []
    ensures var ps := PartsOf(fs) + qs; ps != [] && ps[0] == PartOf(fs[0]) && ps[1..] == PartsOf(fs[1..]) + qs
  {
    hide PartOf;
    assert PartsOf(fs)[1..] == PartsOf(fs[1..]);
  }

  function ValuesAfter(fs: seq<Field>, vs: seq<Value>, x: St): St
    requires AllMatch(fs, vs)
  {
    St(x.rest, ValuesFields(fs, vs, x.f), x.path, x.log + ValuesLines(fs, vs), x.work)
  }

  lemma ValuesAfterStep(fs: seq<Field>, vs: seq<Value>, x: St)
    requires fs != [] && AllMatch(fs, vs)
    ensures ValuesAfter(fs, vs, x) == ValuesAfter(fs[1..], vs[1..], ValueAfter(fs[0], vs[0], x))
  {
    hide Matches, ValueLines, ValueFields;
    assert x.log + ValuesLines(fs, vs) == x.log + ValueLines(fs[0], vs[0]) + ValuesLines(fs[1..], vs[1..]);
  }

  lemma NoValuesAfter(x: St)
    ensures ValuesAfter([], [], x) == x
  {
    assert x.log + [] == x.log;
  }

  lemma ValueVersion(f: Field, v: Value, x: St)
    requires Matches(f, v)
    ensures Version(ValueAfter(f, v, x)) == Version(x)
  {
    hide ValueLines;
  }

  /** Fields that are followed by further parts. */
  lemma {:induction false} PartsAt(fs: seq<Field>, vs: seq<Value>, qs: seq<Part>, t: seq<u32>, x: St)
    requires AllMatch(fs, vs) && Version(x) == 5
    ensures var o := ReadParts(PartsOf(fs) + qs, WithRest(PutValues(fs, vs, t), x));
            && (ValuesDefined(vs) ==> o == ReadParts(qs, WithRest(t, ValuesAfter(fs, vs, x))))
            && (!ValuesDefined(vs) ==> o.sig == Exit(-12))
  {
    hide ReadPart, PartOf, WithRest, PutValue, Matches, ValueAfter, ValuesAfter, IsDefined, Version;
    if fs == [] {
      assert PartsOf(fs) + qs == qs && vs == [];
      NoValuesAfter(x);
    } else {
      assert vs == [vs[0]] + vs[1..];
      NextPart(fs, qs);
      PartAt(fs[0], vs[0], PutValues(fs[1..], vs[1..], t), x);
      ValueVersion(fs[0], vs[0], x);
      ValuesAfterStep(fs, vs, x);
      if IsDefined(vs[0]) {
        PartsAt(fs[1..], vs[1..], qs, t, ValueAfter(fs[0], vs[0], x));
      }
    }
  }

  function FlagParts(tag: u32): seq<Part> {
    match tag
    case 1008 => [Flagged(HasMplsTunnel)]
    case 1009 => [Flagged(HasMplsVc)]
    case 1010 => [Flagged(HasMplsFtn)]
    case 1011 => [Flagged(HasMplsLdpFec)]
    case 1012 => [Flagged(HasVlanTunnel)]
    case _ => []
  }

  lemma SameParts(tag: u32)
    requires |FlatParts(tag)| == |Format(tag)| + |FlagParts(tag)|
    requires forall i :: 0 <= i < |Format(tag)| ==> FlatParts(tag)[i] == PartOf(Format(tag)[i])
    requires forall i :: 0 <= i < |FlagParts(tag)| ==> FlatParts(tag)[|Format(tag)| + i] == FlagParts(tag)[i]
    ensures FlatParts(tag) == PartsOf(Format(tag)) + FlagParts(tag)
  {
    hide FlatParts, Format, FlagParts, PartOf;
  }

  lemma SwitchingParts(tag: u32)
    requires tag < 1013
    ensures FlatParts(tag) == PartsOf(Format(tag)) + FlagParts(tag)
  {
    SameParts(tag);
  }

  lemma WirelessParts(tag: u32)
    requires 1013 <= tag < 1020
    ensures FlatParts(tag) == PartsOf(Format(tag)) + FlagParts(tag)
  {
    SameParts(tag);
  }

  lemma TunnelsParts(tag: u32)
    requires 1020 <= tag < 2100
    ensures FlatParts(tag) == PartsOf(Format(tag)) + FlagParts(tag)
  {
    SameParts(tag);
  }

  lemma SocketsParts(tag: u32)
    requires 2100 <= tag < 2200
    ensures FlatParts(tag) == PartsOf(Format(tag)) + FlagParts(tag)
  {
    SameParts(tag);
  }

  lemma OperationsParts(tag: u32)
    requires tag == 2200 || 2202 <= tag < 2206
    ensures FlatParts(tag) == PartsOf(Format(tag)) + FlagParts(tag)
  {
    SameParts(tag);
  }

  lemma HttpParts(tag: u32)
    requires tag == 2201
    ensures FlatParts(tag) == PartsOf(Format(tag)) + FlagParts(tag)
  {
    SameParts(tag);
  }

  lemma Http2Parts(tag: u32)
    requires tag == 2206
    ensures FlatParts(tag) == PartsOf(Format(tag)) + FlagParts(tag)
  {
    SameParts(tag);
  }

  lemma NoneParts(tag: u32)
    requires 2206 < tag
    ensures FlatParts(tag) == PartsOf(Format(tag)) + FlagParts(tag)
  {
    SameParts(tag);
  }

  /** The parts that are read are those of the format. */
  lemma FormatParts(tag: u32)
    ensures FlatParts(tag) == PartsOf(Format(tag)) + FlagParts(tag)
  {
    hide *;
    if tag < 1013 {
      SwitchingParts(tag);
    } else if tag < 1020 {
      WirelessParts(tag);
    } else if tag < 2100 {
      TunnelsParts(tag);
    } else if tag < 2200 {
      SocketsParts(tag);
    } else if tag == 2201 {
      HttpParts(tag);
    } else if tag < 2206 {
      OperationsParts(tag);
    } else if tag == 2206 {
      Http2Parts(tag);
    } else {
      NoneParts(tag);
    }
  }

  lemma FlagAt(tag: u32, t: seq<u32>, x: St)
    ensures ReadParts(FlagParts(tag), WithRest(t, x))
         == Out(Fine, WithRest(t, x.(f := x.f.(flags := x.f.flags + FlagsOf(tag)))))
  {
    if FlagParts(tag) == [] {
      assert x.f.flags + {} == x.f.flags;
    } else {
      var ps := FlagParts(tag);
      assert ps[1..] == [] && ReadParts(ps[1..], Mark(ps[0].flag, WithRest(t, x))).sig.Fine?;
    }
  }

  lemma PrintedParts(r: Record, t: seq<u32>, x: St)
    requires r.PrintedRec? && RecordOk(r) && Version(x) == 5
    ensures var o := ReadParts(FlatParts(r.printedTag), WithRest(PutBody(r, t), x));
            && (RecordDefined(r) ==> o == Out(Fine, WithRest(t, After(r, x))))
            && (!RecordDefined(r) ==> o.sig == Exit(-12))
  {
    hide ReadParts, FlatParts, PartsOf, FlagParts, FlagsOf, Format, WithRest, PutValues, ValuesLines, ValuesFields,
         AllMatch, ValuesDefined, Version;
    var fs, vs := Format(r.printedTag), r.values;
    FormatParts(r.printedTag);
    PartsAt(fs, vs, FlagParts(r.printedTag), t, x);
    FlagAt(r.printedTag, t, ValuesAfter(fs, vs, x));
  }

  lemma PrintedTag(r: Record)
    requires r.PrintedRec? && RecordOk(r)
    ensures Known(r.printedTag) && r.printedTag != 1 && !(1001 <= r.printedTag <= 1007)
  {
    FormatParts(r.printedTag);
  }

  lemma ReadInParts(tag: u32, x: St)
    requires tag != 1 && !(1001 <= tag <= 1007)
    ensures ReadRecord(tag, x) == ReadParts(FlatParts(tag), x)
  {
    hide ReadParts, FlatParts;
  }

  lemma NotKnown(tag: u32)
    requires Unassigned(tag)
    ensures !Known(tag)
  {
    FormatParts(tag);
  }

  /** A record that is only printed is read to its end, with the lines of its fields. */
  lemma PrintedAt(r: Record, t: seq<u32>, x: St)
    requires r.PrintedRec? && RecordOk(r) && Version(x) == 5
    ensures var o := ReadRecord(Tag(r), WithRest(PutBody(r, t), x));
            && (RecordDefined(r) ==> o == Out(Fine, WithRest(t, After(r, x))))
            && (!RecordDefined(r) ==> o.sig == Exit(-12))
  {
    hide *;
    PrintedTag(r);
    ReadInParts(r.printedTag, WithRest(PutBody(r, t), x));
    TagOf(r);
    PrintedParts(r, t, x);
  }

  lemma TagOf(r: Record)
    requires r.PrintedRec?
    ensures Tag(r) == r.printedTag
  {
  }

  /** A sampled packet is read to its end, with its lines, its values and its VLAN. */
  lemma HeaderAt(r: Record, t: seq<u32>, x: St)
    requires r.HeaderRec? && RecordOk(r) && Version(x) == 5
    ensures var o := ReadRecord(Tag(r), WithRest(PutBody(r, t), x));
            && (RecordDefined(r) ==> o == Out(Fine, WithRest(t, After(r, x))))
            && (!RecordDefined(r) ==> o.sig == Exit(-12))
  {
    hide SampledPacket, WithRest, PutPacket, PacketRead, PacketFields, PacketLines, Version;
    PacketAt(r.packet, t, x);
    PacketAfter(r.packet, x);
  }
}
