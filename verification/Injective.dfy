/** The encoder is injective: the words of a datagram determine it, down to every
    byte of a string or of a record that the decoder skips. */
module Injective {
  import opened Xdr
  import opened SampleState
  import opened Formats
  import opened Encoding

  // Items: equal words in front of whatever follows mean equal items, and that
  // what follows is equal.

  lemma PutOnce(v: u32, w: u32, t: seq<u32>, s: seq<u32>)
    requires Put(v, t) == Put(w, s)
    ensures v == w && t == s
  {
    hide Put;
    var p := Put(v, t);
    assert p[0] == v && p[0] == w && p[1..] == t && p[1..] == s;
  }

  lemma PutAllOnce(vs: seq<u32>, ws: seq<u32>, t: seq<u32>, s: seq<u32>)
    requires |vs| == |ws| && PutAll(vs, t) == PutAll(ws, s)
    ensures vs == ws && t == s
  {
    hide PutAll;
    var p := PutAll(vs, t);
    assert p[..|vs|] == vs && p[..|ws|] == ws && p[|vs|..] == t && p[|ws|..] == s;
  }

  lemma PackOnce(a: seq<byte>, b: seq<byte>, t: seq<u32>, s: seq<u32>)
    requires |a| == |b| && PutAll(Pack(a), t) == PutAll(Pack(b), s)
    ensures a == b && t == s
  {
    hide PutAll, Pack, Bytes;
    PutAllOnce(Pack(a), Pack(b), t, s);
    BytesOfPack(a);
    BytesOfPack(b);
  }

  lemma AddrOnce(a: Address, b: Address, t: seq<u32>, s: seq<u32>)
    requires AddressOk(a) && AddressOk(b) && PutAddr(a, t) == PutAddr(b, s)
    ensures a == b && t == s
  {
    hide Put, PutAll, Pack;
    PutOnce(a.kind, b.kind, PutAll(Pack(a.bytes), t), PutAll(Pack(b.bytes), s));
    PackOnce(a.bytes, b.bytes, t, s);
  }

  lemma StrOnce(a: seq<byte>, b: seq<byte>, t: seq<u32>, s: seq<u32>)
    requires |a| < 0x1_0000_0000 && |b| < 0x1_0000_0000 && PutStr(a, t) == PutStr(b, s)
    ensures a == b && t == s
  {
    hide Put, PutAll, Pack;
    PutOnce(|a|, |b|, PutAll(Pack(a), t), PutAll(Pack(b), s));
    PackOnce(a, b, t, s);
  }

  lemma ListOnce(a: seq<u32>, b: seq<u32>, t: seq<u32>, s: seq<u32>)
    requires |a| < 0x1_0000_0000 && |b| < 0x1_0000_0000 && PutList(a, t) == PutList(b, s)
    ensures a == b && t == s
  {
    hide Put, PutAll;
    PutOnce(|a|, |b|, PutAll(a, t), PutAll(b, s));
    PutAllOnce(a, b, t, s);
  }

  lemma {:induction false} SegmentsOnce(p: AsPath, q: AsPath, t: seq<u32>, s: seq<u32>)
    requires SegmentsFit(p) && SegmentsFit(q) && |p| == |q| && PutSegments(p, t) == PutSegments(q, s)
    ensures p == q && t == s
  {
    hide Put, PutList, SegmentsFit;
    if p == [] {
      assert q == [];
    } else {
      FitParts(p);
      FitParts(q);
      var u, v := PutSegments(p[1..], t), PutSegments(q[1..], s);
      PutOnce(p[0].kind, q[0].kind, PutList(p[0].ases, u), PutList(q[0].ases, v));
      ListOnce(p[0].ases, q[0].ases, u, v);
      SegmentsOnce(p[1..], q[1..], t, s);
      assert p == [p[0]] + p[1..] && q == [q[0]] + q[1..];
    }
  }

  lemma FitParts(p: AsPath)
    requires p != [] && SegmentsFit(p)
    ensures |p[0].ases| < 0x1_0000_0000 && SegmentsFit(p[1..])
  {
    assert p[0] in p && forall g :: g in p[1..] ==> g in p;
  }

  lemma PathOnce(p: AsPath, q: AsPath, t: seq<u32>, s: seq<u32>)
    requires SegmentsFit(p) && SegmentsFit(q) && PutPath(p, t) == PutPath(q, s)
    ensures p == q && t == s
  {
    hide Put, PutSegments;
    PutOnce(|p|, |q|, PutSegments(p, t), PutSegments(q, s));
    SegmentsOnce(p, q, t, s);
  }

  // Records.

  lemma SwitchOnce(r: Record, q: Record, t: seq<u32>, s: seq<u32>)
    requires r.SwitchRec? && q.SwitchRec? && PutBody(r, t) == PutBody(q, s)
    ensures r == q && t == s
  {
    hide Put;
    var r1, q1 := Put(r.outPriority, t), Put(q.outPriority, s);
    var r2, q2 := Put(r.outVlan, r1), Put(q.outVlan, q1);
    PutOnce(r.inVlan, q.inVlan, Put(r.inPriority, r2), Put(q.inPriority, q2));
    PutOnce(r.inPriority, q.inPriority, r2, q2);
    PutOnce(r.outVlan, q.outVlan, r1, q1);
    PutOnce(r.outPriority, q.outPriority, t, s);
  }

  lemma RouterOnce(r: Record, q: Record, t: seq<u32>, s: seq<u32>)
    requires r.RouterRec? && q.RouterRec? && RecordOk(r) && RecordOk(q) && PutBody(r, t) == PutBody(q, s)
    ensures r == q && t == s
  {
    hide Put, PutAddr;
    var r1, q1 := Put(r.dstMask, t), Put(q.dstMask, s);
    AddrOnce(r.nextHop, q.nextHop, Put(r.srcMask, r1), Put(q.srcMask, q1));
    PutOnce(r.srcMask, q.srcMask, r1, q1);
    PutOnce(r.dstMask, q.dstMask, t, s);
  }

  lemma GatewayOnce(r: Record, q: Record, t: seq<u32>, s: seq<u32>)
    requires r.GatewayRec? && q.GatewayRec? && RecordOk(r) && RecordOk(q) && PutBody(r, t) == PutBody(q, s)
    ensures r == q && t == s
  {
    hide Put, PutAddr, PutPath, PutList, SegmentsFit;
    var r1, q1 := PutList(r.communities, Put(r.localpref, t)), PutList(q.communities, Put(q.localpref, s));
    var r2, q2 := Put(r.srcPeerAs, PutPath(r.path, r1)), Put(q.srcPeerAs, PutPath(q.path, q1));
    AddrOnce(r.bgpNextHop, q.bgpNextHop, Put(r.myAs, Put(r.srcAs, r2)), Put(q.myAs, Put(q.srcAs, q2)));
    PutOnce(r.myAs, q.myAs, Put(r.srcAs, r2), Put(q.srcAs, q2));
    PutOnce(r.srcAs, q.srcAs, r2, q2);
    PutOnce(r.srcPeerAs, q.srcPeerAs, PutPath(r.path, r1), PutPath(q.path, q1));
    PathOnce(r.path, q.path, r1, q1);
    ListOnce(r.communities, q.communities, Put(r.localpref, t), Put(q.localpref, s));
    PutOnce(r.localpref, q.localpref, t, s);
  }

  lemma UserOnce(r: Record, q: Record, t: seq<u32>, s: seq<u32>)
    requires r.UserRec? && q.UserRec? && RecordOk(r) && RecordOk(q) && PutBody(r, t) == PutBody(q, s)
    ensures r == q && t == s
  {
    hide Put, PutStr;
    var r1, q1 := Put(r.dstCharset, PutStr(r.dst, t)), Put(q.dstCharset, PutStr(q.dst, s));
    PutOnce(r.srcCharset, q.srcCharset, PutStr(r.src, r1), PutStr(q.src, q1));
    StrOnce(r.src, q.src, r1, q1);
    PutOnce(r.dstCharset, q.dstCharset, PutStr(r.dst, t), PutStr(q.dst, s));
    StrOnce(r.dst, q.dst, t, s);
  }

  lemma UrlOnce(r: Record, q: Record, t: seq<u32>, s: seq<u32>)
    requires r.UrlRec? && q.UrlRec? && RecordOk(r) && RecordOk(q) && PutBody(r, t) == PutBody(q, s)
    ensures r == q && t == s
  {
    hide Put, PutStr;
    var r1, q1 := PutStr(r.host, t), PutStr(q.host, s);
    PutOnce(r.direction, q.direction, PutStr(r.url, r1), PutStr(q.url, q1));
    StrOnce(r.url, q.url, r1, q1);
    StrOnce(r.host, q.host, t, s);
  }

  lemma MplsOnce(r: Record, q: Record, t: seq<u32>, s: seq<u32>)
    requires r.MplsRec? && q.MplsRec? && RecordOk(r) && RecordOk(q) && PutBody(r, t) == PutBody(q, s)
    ensures r == q && t == s
  {
    hide PutAddr, PutList;
    var r1, q1 := PutList(r.outStack, t), PutList(q.outStack, s);
    AddrOnce(r.mplsNextHop, q.mplsNextHop, PutList(r.inStack, r1), PutList(q.inStack, q1));
    ListOnce(r.inStack, q.inStack, r1, q1);
    ListOnce(r.outStack, q.outStack, t, s);
  }

  lemma NatOnce(r: Record, q: Record, t: seq<u32>, s: seq<u32>)
    requires r.NatRec? && q.NatRec? && RecordOk(r) && RecordOk(q) && PutBody(r, t) == PutBody(q, s)
    ensures r == q && t == s
  {
    hide PutAddr;
    AddrOnce(r.natSrc, q.natSrc, PutAddr(r.natDst, t), PutAddr(q.natDst, s));
    AddrOnce(r.natDst, q.natDst, t, s);
  }

  lemma PacketOnce(p: Packet, q: Packet, t: seq<u32>, s: seq<u32>)
    requires |p.bytes| < 0x1_0000_0000 && |q.bytes| < 0x1_0000_0000 && PutPacket(p, t) == PutPacket(q, s)
    ensures p == q && t == s
  {
    hide Put, PutStr;
    var p1, q1 := Put(p.stripped, PutStr(p.bytes, t)), Put(q.stripped, PutStr(q.bytes, s));
    PutOnce(p.protocol, q.protocol, Put(p.size, p1), Put(q.size, q1));
    PutOnce(p.size, q.size, p1, q1);
    PutOnce(p.stripped, q.stripped, PutStr(p.bytes, t), PutStr(q.bytes, s));
    StrOnce(p.bytes, q.bytes, t, s);
  }

  lemma IpOnce(a: Value, b: Value, t: seq<u32>, s: seq<u32>)
    requires a.IpWords? && b.IpWords? && |a.others| == |b.others|
    requires PutAll([a.length] + a.others, t) == PutAll([b.length] + b.others, s)
    ensures a == b && t == s
  {
    var vs, ws := [a.length] + a.others, [b.length] + b.others;
    PutAllOnce(vs, ws, t, s);
    assert vs[0] == a.length && ws[0] == b.length && vs[1..] == a.others && ws[1..] == b.others;
  }

  lemma ValueOnce(f: Field, a: Value, b: Value, t: seq<u32>, s: seq<u32>)
    requires Matches(f, a) && Matches(f, b) && PutValue(f, a, t) == PutValue(f, b, s)
    ensures a == b && t == s
  {
    hide Put, PutAll, PutStr, PutList, PutPacket, Pack;
    match a
    case N32(w) => PutOnce(w, b.w, t, s);
    case N64(hi, lo) =>
      PutOnce(hi, b.hi, Put(lo, t), Put(b.lo, s));
      PutOnce(lo, b.lo, t, s);
    case Run(run) =>
      if f.Octets? {
        PackOnce(run, b.run, t, s);
      } else {
        StrOnce(run, b.run, t, s);
      }
    case Labelled(labels) => ListOnce(labels, b.labels, t, s);
    case IpWords(_, _) => IpOnce(a, b, t, s);
    case Captured(packet) => PacketOnce(packet, b.packet, t, s);
  }

  lemma {:induction false} ValuesOnce(fs: seq<Field>, vs: seq<Value>, ws: seq<Value>, t: seq<u32>, s: seq<u32>)
    requires AllMatch(fs, vs) && AllMatch(fs, ws) && PutValues(fs, vs, t) == PutValues(fs, ws, s)
    ensures vs == ws && t == s
  {
    hide PutValue, Matches;
    if fs == [] {
    } else {
      ValueOnce(fs[0], vs[0], ws[0], PutValues(fs[1..], vs[1..], t), PutValues(fs[1..], ws[1..], s));
      ValuesOnce(fs[1..], vs[1..], ws[1..], t, s);
      assert vs == [vs[0]] + vs[1..] && ws == [ws[0]] + ws[1..];
    }
  }

  /** The tags of formats are none of those of the other records. */
  lemma PrintedTags(tag: u32)
    ensures Format(tag) != [] ==> tag != 1 && !(1001 <= tag <= 1007)
  {
  }

  /** A tag is that of one kind of record only. */
  lemma TagOnce(r: Record, q: Record)
    requires RecordOk(r) && RecordOk(q) && Tag(r) == Tag(q)
    ensures r.HeaderRec? == q.HeaderRec? && r.PrintedRec? == q.PrintedRec?
    ensures r.SwitchRec? == q.SwitchRec? && r.RouterRec? == q.RouterRec? && r.GatewayRec? == q.GatewayRec?
    ensures r.UserRec? == q.UserRec? && r.UrlRec? == q.UrlRec? && r.MplsRec? == q.MplsRec? && r.NatRec? == q.NatRec?
  {
    hide AllMatch;
    PrintedTags(Tag(r));
  }

  lemma HeaderOnce(r: Record, q: Record, t: seq<u32>, s: seq<u32>)
    requires r.HeaderRec? && q.HeaderRec? && RecordOk(r) && RecordOk(q) && PutBody(r, t) == PutBody(q, s)
    ensures r == q && t == s
  {
    hide PutPacket;
    PacketOnce(r.packet, q.packet, t, s);
  }

  lemma PrintedOnce(r: Record, q: Record, t: seq<u32>, s: seq<u32>)
    requires r.PrintedRec? && q.PrintedRec? && RecordOk(r) && RecordOk(q) && Tag(r) == Tag(q)
    requires PutBody(r, t) == PutBody(q, s)
    ensures r == q && t == s
  {
    hide Format, AllMatch, PutValues;
    ValuesOnce(Format(r.printedTag), r.values, q.values, t, s);
  }

  lemma RecordOnce(r: Record, q: Record, t: seq<u32>, s: seq<u32>)
    requires RecordOk(r) && RecordOk(q) && Length(r) < 0x1_0000_0000 && Length(q) < 0x1_0000_0000
    requires PutRecord(r, t) == PutRecord(q, s)
    ensures r == q && t == s
  {
    hide PutBody, RecordOk, PutRecord, Length, Tag;
    BodiesEqual(r, q, t, s);
    TagOnce(r, q);
    if r.HeaderRec? {
      HeaderOnce(r, q, t, s);
    } else if r.PrintedRec? {
      PrintedOnce(r, q, t, s);
    } else if r.SwitchRec? {
      SwitchOnce(r, q, t, s);
    } else if r.RouterRec? {
      RouterOnce(r, q, t, s);
    } else if r.GatewayRec? {
      GatewayOnce(r, q, t, s);
    } else if r.UserRec? {
      UserOnce(r, q, t, s);
    } else if r.UrlRec? {
      UrlOnce(r, q, t, s);
    } else if r.MplsRec? {
      MplsOnce(r, q, t, s);
    } else if r.NatRec? {
      NatOnce(r, q, t, s);
    } else {
      OtherOnce(r, q, t, s);
    }
  }

  lemma BodiesEqual(r: Record, q: Record, t: seq<u32>, s: seq<u32>)
    requires RecordOk(r) && RecordOk(q) && Length(r) < 0x1_0000_0000 && Length(q) < 0x1_0000_0000
    requires PutRecord(r, t) == PutRecord(q, s)
    ensures Tag(r) == Tag(q) && Length(r) == Length(q) && PutBody(r, t) == PutBody(q, s)
  {
    hide Put, PutBody, RecordOk, Length, Tag;
    PutOnce(Tag(r), Tag(q), Put(Length(r), PutBody(r, t)), Put(Length(q), PutBody(q, s)));
    PutOnce(Length(r), Length(q), PutBody(r, t), PutBody(q, s));
  }

  lemma OtherOnce(r: Record, q: Record, t: seq<u32>, s: seq<u32>)
    requires r.OtherRec? && q.OtherRec? && RecordOk(r) && RecordOk(q)
    requires Tag(r) == Tag(q) && Length(r) == Length(q) && PutBody(r, t) == PutBody(q, s)
    ensures r == q && t == s
  {
    hide PutAll, Pack;
    PackOnce(r.body, q.body, t, s);
  }

  lemma {:induction false} RecordsOnce(rs: seq<Record>, qs: seq<Record>, t: seq<u32>, s: seq<u32>)
    requires RecordsOk(rs) && RecordsOk(qs) && |rs| == |qs| && PutRecords(rs, t) == PutRecords(qs, s)
    ensures rs == qs && t == s
  {
    hide PutRecord, RecordOk, Length;
    if rs == [] {
      assert qs == [];
    } else {
      assert rs[0] in rs && qs[0] in qs;
      assert forall r :: r in rs[1..] ==> r in rs;
      assert forall q :: q in qs[1..] ==> q in qs;
      RecordOnce(rs[0], qs[0], PutRecords(rs[1..], t), PutRecords(qs[1..], s));
      RecordsOnce(rs[1..], qs[1..], t, s);
      assert rs == [rs[0]] + rs[1..] && qs == [qs[0]] + qs[1..];
    }
  }

  // Samples.

  lemma SourceOnce(a: FlowSample, b: FlowSample, t: seq<u32>, s: seq<u32>)
    requires SampleOk(a) && SampleOk(b) && a.expanded == b.expanded && PutSource(a, t) == PutSource(b, s)
    ensures a.dsClass == b.dsClass && a.dsIndex == b.dsIndex && t == s
  {
    hide Put, RecordsOk;
    if a.expanded {
      PutOnce(a.dsClass, b.dsClass, Put(a.dsIndex, t), Put(b.dsIndex, s));
      PutOnce(a.dsIndex, b.dsIndex, t, s);
    } else {
      PutOnce(a.dsClass * 0x100_0000 + a.dsIndex, b.dsClass * 0x100_0000 + b.dsIndex, t, s);
    }
  }

  lemma PortsOnce(a: FlowSample, b: FlowSample, t: seq<u32>, s: seq<u32>)
    requires SampleOk(a) && SampleOk(b) && a.expanded == b.expanded && PutPorts(a, t) == PutPorts(b, s)
    ensures a.inFormat == b.inFormat && a.inPort == b.inPort && a.outFormat == b.outFormat && a.outPort == b.outPort
    ensures t == s
  {
    hide Put, RecordsOk;
    if a.expanded {
      var a1, b1 := Put(a.outFormat, Put(a.outPort, t)), Put(b.outFormat, Put(b.outPort, s));
      PutOnce(a.inFormat, b.inFormat, Put(a.inPort, a1), Put(b.inPort, b1));
      PutOnce(a.inPort, b.inPort, a1, b1);
      PutOnce(a.outFormat, b.outFormat, Put(a.outPort, t), Put(b.outPort, s));
      PutOnce(a.outPort, b.outPort, t, s);
    } else {
      var a1, b1 := a.outFormat * 0x4000_0000 + a.outPort, b.outFormat * 0x4000_0000 + b.outPort;
      PutOnce(a.inFormat * 0x4000_0000 + a.inPort, b.inFormat * 0x4000_0000 + b.inPort, Put(a1, t), Put(b1, s));
      PutOnce(a1, b1, t, s);
    }
  }

  lemma BodyOnce(a: FlowSample, b: FlowSample, t: seq<u32>, s: seq<u32>)
    requires SampleOk(a) && SampleOk(b) && a.expanded == b.expanded && PutSampleBody(a, t) == PutSampleBody(b, s)
    ensures a == b && t == s
  {
    hide Put, PutSource, PutPorts, PutRecords, RecordsOk;
    var a1, b1 := PutRecords(a.records, t), PutRecords(b.records, s);
    var a2, b2 := PutPorts(a, Put(|a.records|, a1)), PutPorts(b, Put(|b.records|, b1));
    var a3, b3 := Put(a.pool, Put(a.drops, a2)), Put(b.pool, Put(b.drops, b2));
    PutOnce(a.sequence, b.sequence, PutSource(a, Put(a.meanSkip, a3)), PutSource(b, Put(b.meanSkip, b3)));
    SourceOnce(a, b, Put(a.meanSkip, a3), Put(b.meanSkip, b3));
    PutOnce(a.meanSkip, b.meanSkip, a3, b3);
    PutOnce(a.pool, b.pool, Put(a.drops, a2), Put(b.drops, b2));
    PutOnce(a.drops, b.drops, a2, b2);
    PortsOnce(a, b, Put(|a.records|, a1), Put(|b.records|, b1));
    PutOnce(|a.records|, |b.records|, a1, b1);
    RecordsOnce(a.records, b.records, t, s);
  }

  lemma SampleOnce(a: FlowSample, b: FlowSample, t: seq<u32>, s: seq<u32>)
    requires SampleFits(a) && SampleFits(b) && PutSample(a, t) == PutSample(b, s)
    ensures a == b && t == s
  {
    hide Put, PutSampleBody, RecordsOk;
    var a1, b1 := PutSampleBody(a, t), PutSampleBody(b, s);
    var n, m := 4 * |PutSampleBody(a, [])|, 4 * |PutSampleBody(b, [])|;
    PutOnce(if a.expanded then 3 else 1, if b.expanded then 3 else 1, Put(n, a1), Put(m, b1));
    PutOnce(n, m, a1, b1);
    BodyOnce(a, b, t, s);
  }

  lemma {:induction false} SamplesOnce(ss: seq<FlowSample>, rs: seq<FlowSample>, t: seq<u32>, s: seq<u32>)
    requires SamplesFit(ss) && SamplesFit(rs) && |ss| == |rs| && PutSamples(ss, t) == PutSamples(rs, s)
    ensures ss == rs && t == s
  {
    hide PutSample, SampleFits;
    if ss == [] {
      assert rs == [];
    } else {
      assert ss[0] in ss && rs[0] in rs;
      assert forall a :: a in ss[1..] ==> a in ss;
      assert forall b :: b in rs[1..] ==> b in rs;
      SampleOnce(ss[0], rs[0], PutSamples(ss[1..], t), PutSamples(rs[1..], s));
      SamplesOnce(ss[1..], rs[1..], t, s);
      assert ss == [ss[0]] + ss[1..] && rs == [rs[0]] + rs[1..];
    }
  }

  // Datagrams.

  lemma WordsDetermine(d: Datagram, e: Datagram)
    requires DatagramOk(d) && DatagramOk(e) && Encode(d) == Encode(e)
    ensures d == e
  {
    hide Put, PutAddr, PutSamples, SamplesFit;
    var d1, e1 := Put(|d.samples|, PutSamples(d.samples, [])), Put(|e.samples|, PutSamples(e.samples, []));
    var d2, e2 := Put(d.sequence, Put(d.upTime, d1)), Put(e.sequence, Put(e.upTime, e1));
    PutOnce(5, 5, PutAddr(d.agent, Put(d.subId, d2)), PutAddr(e.agent, Put(e.subId, e2)));
    AddrOnce(d.agent, e.agent, Put(d.subId, d2), Put(e.subId, e2));
    PutOnce(d.subId, e.subId, d2, e2);
    PutOnce(d.sequence, e.sequence, Put(d.upTime, d1), Put(e.upTime, e1));
    PutOnce(d.upTime, e.upTime, d1, e1);
    PutOnce(|d.samples|, |e.samples|, PutSamples(d.samples, []), PutSamples(e.samples, []));
    SamplesOnce(d.samples, e.samples, [], []);
  }

  /** Datagrams that look the same on the wire are the same. */
  lemma EncodeInjective(d: Datagram, e: Datagram)
    requires DatagramOk(d) && DatagramOk(e) && Bytes(Encode(d)) == Bytes(Encode(e))
    ensures d == e
  {
    hide Encode, DatagramOk, Bytes, Words;
    WordsOfBytes(Encode(d));
    WordsOfBytes(Encode(e));
    WordsDetermine(d, e);
  }
}
