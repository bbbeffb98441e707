/** The round trip from records up to whole datagrams. */
module DatagramTrip {
  import opened Xdr
  import opened SampleState
  import opened Reader
  import opened Records
  import opened FlowDecode
  import opened Formats
  import opened Encoding
  import opened RoundTrip
  import opened PrintedTrip

  lemma RecordAt(r: Record, t: seq<u32>, x: St)
    requires RecordOk(r) && RecordDefined(r) && Version(x) == 5 && Length(r) < 0x1_0000_0000
    ensures ReadElementBody(Tag(r), Length(r), WithRest(PutBody(r, t), x)) == Out(Fine, WithRest(t, After(r, x)))
  {
    hide Switch, Router, Gateway, User, UrlOf, Mpls, Nat, SkipRecord, ReadParts, FlatParts, SampledPacket, After,
         WithRest, PutBody, SwitchSteps, RouterSteps, UserSteps, UrlSteps, MplsSteps, NatSteps, GatewaySteps;
    match r
    case HeaderRec(_) => HeaderAt(r, t, x);
    case SwitchRec(_, _, _, _) => SwitchAt(r, t, x); SwitchAfter(r, x);
    case RouterRec(_, _, _) => RouterAt(r, t, x); RouterAfter(r, x);
    case GatewayRec(_, _, _, _, _, _, _) => GatewayAt(r, t, x); GatewayAfter(r, x);
    case UserRec(_, _, _, _) => UserAt(r, t, x); UserAfter(r, x);
    case UrlRec(_, _, _) => UrlAt(r, t, x); UrlAfter(r, x);
    case MplsRec(_, _, _) => MplsAt(r, t, x); MplsAfter(r, x);
    case NatRec(_, _) => NatAt(r, t, x); NatAfter(r, x);
    case PrintedRec(_, _) => PrintedTag(r); PrintedAt(r, t, x);
    case OtherRec(tag, _) => NotKnown(tag); OtherAt(r, t, x);
  }

  /** A record with an undefined header protocol ends the program. */
  lemma RecordExits(r: Record, t: seq<u32>, x: St)
    requires RecordOk(r) && !RecordDefined(r) && Version(x) == 5 && Length(r) < 0x1_0000_0000
    ensures ReadElementBody(Tag(r), Length(r), WithRest(PutBody(r, t), x)).sig == Exit(-12)
  {
    hide ReadRecord, FlatParts, WithRest, PutBody, After, Defined, ValuesDefined, Format, Length, AllMatch;
    if r.HeaderRec? {
      HeaderAt(r, t, x);
    } else {
      PrintedTag(r);
      PrintedAt(r, t, x);
    }
  }

  // Sizes.

  lemma PutMore(w: u32, ws: seq<u32>, t: seq<u32>)
    ensures Put(w, ws + t) == Put(w, ws) + t
  {
  }

  lemma PutAllMore(vs: seq<u32>, ws: seq<u32>, t: seq<u32>)
    ensures PutAll(vs, ws + t) == PutAll(vs, ws) + t
  {
  }

  lemma NothingMore(t: seq<u32>)
    ensures [] + t == t
  {
  }

  lemma PutsMore(t: seq<u32>)
    ensures forall w, ws {:trigger Put(w, ws + t)} :: Put(w, ws + t) == Put(w, ws) + t
    ensures forall vs, ws {:trigger PutAll(vs, ws + t)} :: PutAll(vs, ws + t) == PutAll(vs, ws) + t
    ensures [] + t == t
  {
    hide Put, PutAll;
    forall w, ws
      ensures Put(w, ws + t) == Put(w, ws) + t
    {
      PutMore(w, ws, t);
    }
    forall vs, ws
      ensures PutAll(vs, ws + t) == PutAll(vs, ws) + t
    {
      PutAllMore(vs, ws, t);
    }
  }

  lemma ItemsMore(t: seq<u32>)
    ensures forall a, ws {:trigger PutAddr(a, ws + t)} :: PutAddr(a, ws + t) == PutAddr(a, ws) + t
    ensures forall s, ws {:trigger PutStr(s, ws + t)} ::
              |s| < 0x1_0000_0000 ==> PutStr(s, ws + t) == PutStr(s, ws) + t
    ensures forall l, ws {:trigger PutList(l, ws + t)} ::
              |l| < 0x1_0000_0000 ==> PutList(l, ws + t) == PutList(l, ws) + t
  {
    hide Put, PutAll, Pack;
    PutsMore(t);
  }

  lemma {:induction false} SegmentsMore(path: AsPath, ws: seq<u32>, t: seq<u32>)
    requires SegmentsFit(path)
    ensures PutSegments(path, ws + t) == PutSegments(path, ws) + t
  {
    hide Put, PutAll;
    if path == [] {
    } else {
      assert path[0] in path && forall s :: s in path[1..] ==> s in path;
      SegmentsMore(path[1..], ws, t);
      PutsMore(t);
    }
  }

  lemma ValueMore(f: Field, v: Value, ws: seq<u32>, t: seq<u32>)
    requires Matches(f, v)
    ensures PutValue(f, v, ws + t) == PutValue(f, v, ws) + t
  {
    hide Put, PutAll, PutStr, PutList, Pack;
    PutsMore(t);
    ItemsMore(t);
  }

  lemma {:induction false} ValuesMore(fs: seq<Field>, vs: seq<Value>, ws: seq<u32>, t: seq<u32>)
    requires AllMatch(fs, vs)
    ensures PutValues(fs, vs, ws + t) == PutValues(fs, vs, ws) + t
  {
    hide PutValue, Matches;
    if fs == [] {
    } else {
      ValuesMore(fs[1..], vs[1..], ws, t);
      ValueMore(fs[0], vs[0], PutValues(fs[1..], vs[1..], ws), t);
    }
  }

  lemma GatewayMore(r: Record, t: seq<u32>)
    requires r.GatewayRec? && RecordOk(r)
    ensures PutBody(r, t) == PutBody(r, []) + t
  {
    hide Put, PutAddr, PutList, PutSegments, SegmentsFit, AddressOk;
    PutsMore(t);
    ItemsMore(t);
    SegmentsMore(r.path, PutList(r.communities, Put(r.localpref, [])), t);
  }

  lemma PrintedMore(r: Record, t: seq<u32>)
    requires r.PrintedRec? && RecordOk(r)
    ensures PutBody(r, t) == PutBody(r, []) + t
  {
    hide Format, AllMatch, PutValues;
    NothingMore(t);
    ValuesMore(Format(r.printedTag), r.values, [], t);
  }

  lemma OthersMore(r: Record, t: seq<u32>)
    requires !r.PrintedRec? && !r.GatewayRec? && RecordOk(r)
    ensures PutBody(r, t) == PutBody(r, []) + t
  {
    hide Put, PutAll, PutAddr, PutStr, PutList, Pack, Format, AllMatch, PutValues, PutPath, SegmentsFit, AddressOk;
    PutsMore(t);
    ItemsMore(t);
  }

  /** The words of a record are put in front of what follows. */
  lemma BodyMore(r: Record, t: seq<u32>)
    requires RecordOk(r)
    ensures PutBody(r, t) == PutBody(r, []) + t
  {
    hide *;
    if r.PrintedRec? {
      PrintedMore(r, t);
    } else if r.GatewayRec? {
      GatewayMore(r, t);
    } else {
      OthersMore(r, t);
    }
  }

  lemma BodySize(r: Record, t: seq<u32>)
    requires RecordOk(r)
    ensures |PutBody(r, t)| == |PutBody(r, [])| + |t|
    ensures Length(r) < 0x1_0000_0000 ==> |PutBody(r, [])| == Quads(Length(r)) < WRAPS
  {
    BodyMore(r, t);
    if r.OtherRec? {
      assert |PutBody(r, [])| == Quads(|r.body|);
    } else {
      hide PutBody, RecordOk;
    }
  }

  function ElementAfter(r: Record, x: St): St
    requires RecordOk(r)
  {
    Count(After(r, Line(BlockTag(Tag(r)), x)))
  }

  lemma ElementAt(r: Record, t: seq<u32>, x: St)
    requires RecordOk(r) && RecordDefined(r) && Version(x) == 5 && Length(r) < 0x1_0000_0000
    ensures ReadElement(WithRest(PutRecord(r, t), x)) == Out(Fine, WithRest(t, ElementAfter(r, x)))
  {
    hide Get, WithRest, Put, Line, Count, After, PutBody, Length, RecordOk, RecordDefined, ReadElementBody,
         LengthCheck, Tag, Version;
    var y := Line(BlockTag(Tag(r)), x);
    LineVersion(BlockTag(Tag(r)), x);
    RestAt(PutBody(r, t), y);
    BodyChecks(r, t, After(r, y));
    GetsAt();
    StoresAt();
    RecordAt(r, t, y);
  }

  lemma ElementExits(r: Record, t: seq<u32>, x: St)
    requires RecordOk(r) && !RecordDefined(r) && Version(x) == 5 && Length(r) < 0x1_0000_0000
    ensures ReadElement(WithRest(PutRecord(r, t), x)).sig == Exit(-12)
  {
    hide Get, WithRest, Put, Line, Count, PutBody, Length, RecordOk, RecordDefined, ReadElementBody, LengthCheck,
         Tag, Version;
    LineVersion(BlockTag(Tag(r)), x);
    GetsAt();
    StoresAt();
    RecordExits(r, t, Line(BlockTag(Tag(r)), x));
  }

  lemma LineVersion(e: Event, x: St)
    ensures Version(Line(e, x)) == Version(x)
  {
  }

  /** The length of an encoded record passes the check behind it. */
  lemma BodyChecks(r: Record, t: seq<u32>, y: St)
    requires RecordOk(r) && Length(r) < 0x1_0000_0000
    ensures LengthCheck(|PutBody(r, t)|, Length(r), WithRest(t, y)) == Out(Fine, WithRest(t, y))
  {
    hide WithRest, PutBody, RecordOk, LengthCheck;
    RestAt(t, y);
    BodySize(r, t);
    CheckAt(|PutBody(r, t)|, Length(r), WithRest(t, y));
  }

  /** A length that says what was read passes the check. */
  lemma CheckAt(start: nat, len: u32, x: St)
    requires start - |x.rest| == Quads(len) < WRAPS
    ensures LengthCheck(start, len, x) == Out(Fine, x)
  {
  }

  lemma RestAt(t: seq<u32>, x: St)
    ensures WithRest(t, x).rest == t
  {
  }

  lemma {:induction false} ValuesVersion(fs: seq<Field>, vs: seq<Value>, f: Fields)
    requires AllMatch(fs, vs)
    ensures Num(ValuesFields(fs, vs, f), DatagramVersion) == Num(f, DatagramVersion)
  {
    hide Padded, Bytes, VlanOf;
    if fs == [] {
    } else {
      ValuesVersion(fs[1..], vs[1..], ValueFields(fs[0], vs[0], f));
    }
  }

  lemma VersionKept(r: Record, f: Fields)
    requires RecordOk(r)
    ensures Num(RecordFields(r, f), DatagramVersion) == Num(f, DatagramVersion)
  {
    hide Format, AllMatch, ValuesFields;
    if r.PrintedRec? {
      ValuesVersion(Format(r.printedTag), r.values, f);
    }
  }

  function RecordsWork(rs: seq<Record>): nat {
    if rs == [] then 0 else
      1 + (if rs[0].GatewayRec? then PathWork(rs[0].path) else 0) + RecordsWork(rs[1..])
  }

  function AllAfter(rs: seq<Record>, x: St): St
    requires RecordsOk(rs)
  {
    St(x.rest, RecordsFields(rs, x.f), RecordsPath(rs, x.path), x.log + RecordsLines(rs), x.work + RecordsWork(rs))
  }

  lemma AllAfterStep(rs: seq<Record>, x: St)
    requires rs != [] && RecordsOk(rs)
    ensures RecordsOk(rs[1..]) && AllAfter(rs[1..], ElementAfter(rs[0], x)) == AllAfter(rs, x)
  {
    hide RecordOk, Length, RecordFields, RecordLines, PathWork, Tag;
    assert forall r :: r in rs[1..] ==> r in rs;
    assert rs[0] in rs;
    LinesStep(rs, x.log);
  }

  lemma LinesStep(rs: seq<Record>, log: seq<Event>)
    requires rs != [] && RecordsOk(rs)
    ensures log + [BlockTag(Tag(rs[0]))] + RecordLines(rs[0]) + RecordsLines(rs[1..]) == log + RecordsLines(rs)
  {
    hide RecordOk, Length, RecordLines, Tag;
    assert rs[0] in rs;
    var a, b, c := [BlockTag(Tag(rs[0]))], RecordLines(rs[0]), RecordsLines(rs[1..]);
    assert RecordsLines(rs) == a + b + c;
    InFront(log, a, b, c);
  }

  lemma InFront(log: seq<Event>, a: seq<Event>, b: seq<Event>, c: seq<Event>)
    ensures log + a + b + c == log + (a + b + c)
  {
  }

  lemma {:induction false} RecordsAt(rs: seq<Record>, t: seq<u32>, x: St)
    requires RecordsOk(rs) && Version(x) == 5
    ensures var o := ReadElements(|rs|, WithRest(PutRecords(rs, t), x));
            && (RecordsDefined(rs) ==> o == Out(Fine, WithRest(t, AllAfter(rs, x))))
            && (!RecordsDefined(rs) ==> o.sig == Exit(-12))
    ensures Version(AllAfter(rs, x)) == 5
  {
    hide ReadElement, WithRest, AllAfter, ElementAfter, PutRecord, RecordOk, RecordDefined, Length, Version;
    if rs == [] {
      NoneAfter(x);
    } else {
      assert rs == [rs[0]] + rs[1..];
      ElementVersion(rs[0], x);
      AllAfterStep(rs, x);
      RecordsAt(rs[1..], t, ElementAfter(rs[0], x));
      if RecordDefined(rs[0]) {
        ElementAt(rs[0], PutRecords(rs[1..], t), x);
      } else {
        ElementExits(rs[0], PutRecords(rs[1..], t), x);
      }
    }
  }

  lemma NoneAfter(x: St)
    ensures AllAfter([], x) == x
  {
    assert x.log + [] == x.log;
  }

  lemma ElementVersion(r: Record, x: St)
    requires RecordOk(r)
    ensures Version(ElementAfter(r, x)) == Version(x)
  {
    VersionKept(r, x.f);
  }

  // Flow samples.

  lemma SourceAt(s: FlowSample, t: seq<u32>, x: St)
    requires SampleOk(s)
    ensures ReadSourceOf(s.expanded, WithRest(PutSource(s, t), x))
         == Out(Fine, WithRest(t, Store(DsIndex, s.dsIndex, Store(DsClass, s.dsClass, x))))
  {
    hide Get, Read, WithRest, Store, Put, RecordsOk;
    GetsAt();
    ReadsAt();
    StoresAt();
  }

  lemma PackedPortsAt(s: FlowSample, t: seq<u32>, x: St)
    requires SampleOk(s) && !s.expanded
    ensures ReadPorts(WithRest(PutPorts(s, t), x)) == Out(Fine, WithRest(t, PortsStored(s, x)))
  {
    PortWords(s);
    PortsOrder(s, x);
    hide Get, WithRest, Store, Put, RecordsOk;
    GetsAt();
    StoresAt();
  }

  lemma ExpandedPortsAt(s: FlowSample, t: seq<u32>, x: St)
    requires SampleOk(s) && s.expanded
    ensures ReadPortsExpanded(WithRest(PutPorts(s, t), x)) == Out(Fine, WithRest(t, PortsStored(s, x)))
  {
    hide Read, WithRest, Store, Put, RecordsOk;
    ReadsAt();
    StoresAt();
  }

  lemma PortsAt(s: FlowSample, t: seq<u32>, x: St)
    requires SampleOk(s)
    ensures ReadPortsOf(s.expanded, WithRest(PutPorts(s, t), x)) == Out(Fine, WithRest(t, PortsStored(s, x)))
  {
    hide SampleOk, ReadPorts, ReadPortsExpanded, WithRest, PutPorts, PortsStored;
    if s.expanded {
      ExpandedPortsAt(s, t, x);
    } else {
      PackedPortsAt(s, t, x);
    }
  }

  function PortsStored(s: FlowSample, x: St): St {
    Store(OutputPort, s.outPort, Store(OutputPortFormat, s.outFormat,
      Store(InputPort, s.inPort, Store(InputPortFormat, s.inFormat, x))))
  }

  lemma PortWords(s: FlowSample)
    requires SampleOk(s) && !s.expanded
    ensures (s.inFormat * 0x4000_0000 + s.inPort) / WRAPS == s.inFormat
    ensures (s.inFormat * 0x4000_0000 + s.inPort) % WRAPS == s.inPort
    ensures (s.outFormat * 0x4000_0000 + s.outPort) / WRAPS == s.outFormat
    ensures (s.outFormat * 0x4000_0000 + s.outPort) % WRAPS == s.outPort
  {
  }

  lemma PortsOrder(s: FlowSample, x: St)
    ensures Store(OutputPort, s.outPort, Store(InputPort, s.inPort,
              Store(OutputPortFormat, s.outFormat, Store(InputPortFormat, s.inFormat, x)))) == PortsStored(s, x)
  {
    assert x.f.num[InputPortFormat := s.inFormat][OutputPortFormat := s.outFormat][InputPort := s.inPort]
        == x.f.num[InputPortFormat := s.inFormat][InputPort := s.inPort][OutputPortFormat := s.outFormat];
  }

  lemma RatesAt(a: u32, b: u32, c: u32, t: seq<u32>, x: St)
    ensures ReadRates(WithRest(Put(a, Put(b, Put(c, t))), x))
         == Out(Fine, WithRest(t, Store(DropEvents, c, Store(SamplePool, b, Store(MeanSkipCount, a, x)))))
  {
    hide Read, WithRest, Store, Put;
    ReadsAt();
    StoresAt();
  }

  lemma ShowsAt()
    ensures forall t, x {:trigger ShowSource(WithRest(t, x))} ::
              ShowSource(WithRest(t, x)) == WithRest(t, ShowSource(x))
    ensures forall t, x {:trigger ShowRates(WithRest(t, x))} :: ShowRates(WithRest(t, x)) == WithRest(t, ShowRates(x))
    ensures forall i, t, x {:trigger ShowPort(i, WithRest(t, x))} ::
              ShowPort(i, WithRest(t, x)) == WithRest(t, ShowPort(i, x))
  {
    hide WithRest, Line, Show;
    StoresAt();
  }

  /** The states in front of the rates, in front of the ports, and behind them. */
  function SourceRead(s: FlowSample, x: St): St {
    var y := Show(SamplesGenerated, Store(SamplesGenerated, s.sequence, x));
    ShowSource(Store(DsIndex, s.dsIndex, Store(DsClass, s.dsClass, y)))
  }

  function RatesRead(s: FlowSample, y: St): St {
    ShowRates(Store(DropEvents, s.drops, Store(SamplePool, s.pool, Store(MeanSkipCount, s.meanSkip, y))))
  }

  function PortsRead(s: FlowSample, y: St): St {
    ShowPort(false, ShowPort(true, PortsStored(s, y)))
  }

  function HeadRead(s: FlowSample, x: St): St {
    PortsRead(s, RatesRead(s, SourceRead(s, x)))
  }

  lemma TopAt(s: FlowSample, t: seq<u32>, x: St)
    requires SampleOk(s)
    ensures ReadFlowTop(s.expanded, WithRest(Put(s.sequence, PutSource(s, t)), x))
         == Out(Fine, WithRest(t, SourceRead(s, x)))
  {
    hide Read, ReadSourceOf, WithRest, Store, Put, PutSource, Show, ShowSource, RecordsOk;
    ReadsAt();
    StoresAt();
    ShowsAt();
    SourceAt(s, t, Show(SamplesGenerated, Store(SamplesGenerated, s.sequence, x)));
  }

  lemma HeadAt(s: FlowSample, t: seq<u32>, x: St)
    requires SampleOk(s)
    ensures ReadFlowHead(s.expanded, WithRest(Put(s.sequence, PutSource(s, Put(s.meanSkip, Put(s.pool, Put(s.drops,
                                        PutPorts(s, t)))))), x))
         == Out(Fine, WithRest(t, HeadRead(s, x)))
  {
    hide ReadFlowTop, ReadRates, ReadPortsOf, WithRest, Store, Put, PutSource, PutPorts, SourceRead, ShowRates,
         ShowPort, PortsStored, RecordsOk;
    StoresAt();
    ShowsAt();
    var u := PutPorts(s, t);
    TopAt(s, Put(s.meanSkip, Put(s.pool, Put(s.drops, u))), x);
    RatesAt(s.meanSkip, s.pool, s.drops, u, SourceRead(s, x));
    PortsAt(s, t, RatesRead(s, SourceRead(s, x)));
  }

  function HeadLines(s: FlowSample): seq<Event> {
    [ShowNum(SamplesGenerated, s.sequence), SourceId(s.dsClass, s.dsIndex), ShowNum(MeanSkipCount, s.meanSkip),
     ShowNum(SamplePool, s.pool), ShowNum(DropEvents, s.drops)]
    + PortLines(true, s.inFormat, s.inPort) + PortLines(false, s.outFormat, s.outPort)
  }

  lemma HeadAfter(s: FlowSample, x: St)
    ensures HeadRead(s, x) == St(x.rest, HeadFields(s, x.f), x.path, x.log + HeadLines(s), x.work)
  {
    hide SourceRead, RatesRead, PortsRead;
    SourceAfter(s, x);
    RatesAfter(s, SourceRead(s, x));
    PortsAfter(s, RatesRead(s, SourceRead(s, x)));
    HeadLog(s, x.log);
  }

  lemma SourceAfter(s: FlowSample, x: St)
    ensures SourceRead(s, x)
         == St(x.rest,
               x.f.(num := x.f.num[SamplesGenerated := s.sequence][DsClass := s.dsClass][DsIndex := s.dsIndex]), x.path,
               x.log + [ShowNum(SamplesGenerated, s.sequence), SourceId(s.dsClass, s.dsIndex)], x.work)
  {
    assert SourceRead(s, x).log == x.log + [ShowNum(SamplesGenerated, s.sequence), SourceId(s.dsClass, s.dsIndex)];
  }

  lemma RatesAfter(s: FlowSample, x: St)
    ensures RatesRead(s, x)
         == St(x.rest,
               x.f.(num := x.f.num[MeanSkipCount := s.meanSkip][SamplePool := s.pool][DropEvents := s.drops]), x.path,
               x.log + [ShowNum(MeanSkipCount, s.meanSkip), ShowNum(SamplePool, s.pool), ShowNum(DropEvents, s.drops)],
               x.work)
  {
    assert RatesRead(s, x).log
        == x.log + [ShowNum(MeanSkipCount, s.meanSkip), ShowNum(SamplePool, s.pool), ShowNum(DropEvents, s.drops)];
  }

  lemma PortsAfter(s: FlowSample, x: St)
    ensures PortsRead(s, x)
         == St(x.rest, x.f.(num := x.f.num[InputPortFormat := s.inFormat][InputPort := s.inPort]
                                   [OutputPortFormat := s.outFormat][OutputPort := s.outPort]), x.path,
               x.log + (PortLines(true, s.inFormat, s.inPort) + PortLines(false, s.outFormat, s.outPort)), x.work)
  {
    assert PortsRead(s, x).log
        == x.log + (PortLines(true, s.inFormat, s.inPort) + PortLines(false, s.outFormat, s.outPort));
  }

  lemma HeadLog(s: FlowSample, log: seq<Event>)
    ensures log + [ShowNum(SamplesGenerated, s.sequence), SourceId(s.dsClass, s.dsIndex)]
            + [ShowNum(MeanSkipCount, s.meanSkip), ShowNum(SamplePool, s.pool), ShowNum(DropEvents, s.drops)]
            + (PortLines(true, s.inFormat, s.inPort) + PortLines(false, s.outFormat, s.outPort))
         == log + HeadLines(s)
  {
  }

  lemma {:induction false} RecordsSize(rs: seq<Record>, t: seq<u32>)
    requires RecordsOk(rs)
    ensures |PutRecords(rs, t)| == |PutRecords(rs, [])| + |t|
  {
    hide PutBody, RecordOk, Length;
    if rs == [] {
    } else {
      BodySize(rs[0], PutRecords(rs[1..], t));
      BodySize(rs[0], PutRecords(rs[1..], []));
      RecordsSize(rs[1..], t);
    }
  }

  lemma SampleSize(s: FlowSample, t: seq<u32>)
    requires SampleOk(s)
    ensures |PutSampleBody(s, t)| == |PutSampleBody(s, [])| + |t|
  {
    hide RecordsOk, PutRecords;
    RecordsSize(s.records, t);
  }

  lemma WordsCheck(n: nat)
    requires 4 * n < 0x1_0000_0000
    ensures n == Quads(4 * n) < WRAPS
  {
  }

  /** The states of a sample in front of its head, in front of its records, and behind them. */
  function SampleHead(s: FlowSample, x: St): St {
    HeadRead(s, Line(Title(FlowSampleLine), x))
  }

  lemma FlowSampleAt(s: FlowSample, t: seq<u32>, x: St)
    requires SampleFits(s) && Version(x) == 5
    ensures Version(SampleHead(s, x)) == 5
    ensures var o := ReadFlowSample(s.expanded, WithRest(Put(4 * |PutSampleBody(s, [])|, PutSampleBody(s, t)), x));
            && (RecordsDefined(s.records) ==> o == Out(Fine, WithRest(t, AllAfter(s.records, SampleHead(s, x)))))
            && (!RecordsDefined(s.records) ==> o.sig == Exit(-12))
  {
    hide RecordsDefined, Get, WithRest, Put, Line, ReadFlowHead, ReadElements, LengthCheck, HeadRead, AllAfter,
         PutRecords, PutSource, PutPorts, RecordsOk, HeadFields, Quads;
    var y := Line(Title(FlowSampleLine), x);
    var z := SampleHead(s, x);
    HeadAfter(s, y);
    HeadVersion(s, y.f);
    SampleSize(s, t);
    WordsCheck(|PutSampleBody(s, [])|);
    RestAt(t, AllAfter(s.records, z));
    CheckAt(|PutSampleBody(s, t)|, 4 * |PutSampleBody(s, [])|, WithRest(t, AllAfter(s.records, z)));
    RestAt(PutSampleBody(s, t), y);
    GetsAt();
    StoresAt();
    HeadAt(s, Put(|s.records|, PutRecords(s.records, t)), y);
    RecordsAt(s.records, t, z);
  }

  lemma HeadVersion(s: FlowSample, f: Fields)
    ensures Num(HeadFields(s, f), DatagramVersion) == Num(f, DatagramVersion)
  {
  }

  function SampleWork(s: FlowSample): nat {
    RecordsWork(s.records) + 1
  }

  function SampleAfter(s: FlowSample, x: St): St
    requires SampleFits(s)
  {
    St(x.rest, SampleFields(s, x.f), RecordsPath(s.records, x.path), x.log + SampleLines(s), x.work + SampleWork(s))
  }

  function SampleSteps(s: FlowSample, x: St): St
    requires SampleFits(s)
  {
    var kind := if s.expanded then 3 else 1;
    Count(Line(EndSample, AllAfter(s.records, SampleHead(s, Line(SampleTag(kind), Store(SampleType, kind, x))))))
  }

  lemma SampleAt(s: FlowSample, t: seq<u32>, x: St)
    requires SampleFits(s) && Version(x) == 5
    ensures var o := ReadSample(WithRest(PutSample(s, t), x));
            && (RecordsDefined(s.records) ==> o == Out(Fine, WithRest(t, SampleSteps(s, x))))
            && (!RecordsDefined(s.records) ==> o.sig == Exit(-12))
  {
    hide RecordsDefined, Read, WithRest, Store, Put, Line, Count, ReadFlowSample, AllAfter, SampleHead, PutSampleBody,
         SampleFits, Version;
    var kind := if s.expanded then 3 else 1;
    var y := Line(SampleTag(kind), Store(SampleType, kind, x));
    TypeStored(kind, x);
    LineVersion(SampleTag(kind), Store(SampleType, kind, x));
    RestVersion();
    ReadsAt();
    StoresAt();
    FlowSampleAt(s, t, y);
  }

  lemma RestVersion()
    ensures forall t, x {:trigger WithRest(t, x)} :: Version(WithRest(t, x)) == Version(x)
  {
  }

  lemma TypeStored(kind: u32, x: St)
    ensures var y := Store(SampleType, kind, x); Num(y.f, SampleType) == kind && Version(y) == Version(x)
  {
  }

  lemma SampleStepsAfter(s: FlowSample, x: St)
    requires SampleFits(s)
    ensures SampleSteps(s, x) == SampleAfter(s, x)
  {
    hide HeadRead, HeadFields, HeadLines, RecordsFields, RecordsLines, RecordsOk, PutSampleBody, PortLines,
         SampleLines;
    var kind := if s.expanded then 3 else 1;
    HeadAfter(s, Line(Title(FlowSampleLine), Line(SampleTag(kind), Store(SampleType, kind, x))));
    SampleLinesParts(s, x.log);
  }

  lemma SampleLinesParts(s: FlowSample, log: seq<Event>)
    requires SampleFits(s)
    ensures log + [SampleTag(if s.expanded then 3 else 1)] + [Title(FlowSampleLine)] + HeadLines(s)
            + RecordsLines(s.records) + [EndSample] == log + SampleLines(s)
  {
    hide RecordsLines, RecordsOk, PutSampleBody, PortLines;
  }

  lemma SampleVersion(s: FlowSample, x: St)
    requires SampleFits(s) && Version(x) == 5
    ensures Version(SampleAfter(s, x)) == 5
  {
    hide RecordsFields, HeadFields, RecordsOk, SampleLines, PutSampleBody;
    var f := x.f.(num := x.f.num[SampleType := if s.expanded then 3 else 1]);
    HeadVersion(s, f);
    RecordsVersion(s.records, HeadFields(s, f));
  }

  lemma {:induction false} RecordsVersion(rs: seq<Record>, f: Fields)
    requires RecordsOk(rs)
    ensures Num(RecordsFields(rs, f), DatagramVersion) == Num(f, DatagramVersion)
  {
    hide RecordFields, RecordOk, Length;
    if rs == [] {
    } else {
      VersionKept(rs[0], f);
      RecordsVersion(rs[1..], RecordFields(rs[0], f));
    }
  }

  // A sample of a type that is not known.

  function UnknownSteps(kind: u32, body: seq<byte>, x: St): St
    requires |body| < 0x1_0000_0000
  {
    var y := Line(SampleTag(kind), Store(SampleType, kind, x));
    Count(Line(EndSample, Line(Skipped(true, kind, |body|), y)))
  }

  lemma SkippedAt(kind: u32, body: seq<byte>, t: seq<u32>, x: St)
    requires |body| < 0x1_0000_0000
    ensures SkipRecord(true, kind, |body|, WithRest(PutAll(Pack(body), t), x))
         == Out(Fine, WithRest(t, Line(Skipped(true, kind, |body|), x)))
  {
    hide Get, WithRest, PutAll, Pack, Line;
    GetsAt();
    StoresAt();
  }

  lemma UnknownAt(kind: u32, body: seq<byte>, t: seq<u32>, x: St)
    requires (kind == 0 || kind > 4) && |body| < 0x1_0000_0000 && Version(x) == 5
    ensures ReadSample(WithRest(Put(kind, PutStr(body, t)), x)) == Out(Fine, WithRest(t, UnknownSteps(kind, body, x)))
  {
    hide Get, Read, WithRest, Store, Put, PutAll, Pack, Line, Count, SkipRecord, Version;
    var y := Line(SampleTag(kind), Store(SampleType, kind, x));
    TypeStored(kind, x);
    LineVersion(SampleTag(kind), Store(SampleType, kind, x));
    RestVersion();
    GetsAt();
    ReadsAt();
    StoresAt();
    SkippedAt(kind, body, t, y);
  }

  // Datagrams.

  function SamplesWork(ss: seq<FlowSample>): nat {
    if ss == [] then 0 else SampleWork(ss[0]) + SamplesWork(ss[1..])
  }

  function SamplesAfter(ss: seq<FlowSample>, x: St): St
    requires SamplesFit(ss)
  {
    St(x.rest, SamplesFields(ss, x.f), SamplesPath(ss, x.path), x.log + SamplesLines(ss), x.work + SamplesWork(ss))
  }

  lemma SamplesAfterStep(ss: seq<FlowSample>, x: St)
    requires ss != [] && SamplesFit(ss)
    ensures SamplesFit(ss[1..]) && SamplesAfter(ss[1..], SampleAfter(ss[0], x)) == SamplesAfter(ss, x)
  {
    hide SampleFits, SampleFields, SampleLines, SampleWork, RecordsPath;
    assert x.log + SampleLines(ss[0]) + SamplesLines(ss[1..]) == x.log + SamplesLines(ss);
  }

  lemma NoSamplesAfter(x: St)
    ensures SamplesAfter([], x) == x
  {
    assert x.log + [] == x.log;
  }

  lemma {:induction false} SamplesAt(ss: seq<FlowSample>, t: seq<u32>, x: St)
    requires SamplesFit(ss) && Version(x) == 5
    ensures var o := ReadSamples(|ss|, WithRest(PutSamples(ss, t), x));
            && (SamplesDefined(ss) ==> o == Out(Fine, WithRest(t, SamplesAfter(ss, x))))
            && (!SamplesDefined(ss) ==> o.sig == Exit(-12))
  {
    hide ReadSample, WithRest, SamplesAfter, SampleAfter, SampleSteps, PutSample, SampleFits, RecordsDefined, Version;
    if ss == [] {
      NoSamplesAfter(x);
    } else {
      assert ss == [ss[0]] + ss[1..];
      SampleAt(ss[0], PutSamples(ss[1..], t), x);
      SampleStepsAfter(ss[0], x);
      SampleVersion(ss[0], x);
      SamplesAfterStep(ss, x);
      SamplesAt(ss[1..], t, SampleAfter(ss[0], x));
    }
  }

  /** The state behind the fixed part of a datagram. */
  function HeadOf(d: Datagram, x: St): St {
    var y := Show(DatagramVersion, Store(DatagramVersion, 5, x));
    var z := Show(AgentSubId, Store(AgentSubId, d.subId, StoreAddr(Agent, d.agent, y)));
    Store(SysUpTime, d.upTime, Store(SequenceNo, d.sequence, z))
  }

  lemma DatagramHeadAt(d: Datagram, t: seq<u32>, x: St)
    requires AddressOk(d.agent)
    ensures ReadDatagramHead(WithRest(Put(5, PutAddr(d.agent, Put(d.subId, Put(d.sequence, Put(d.upTime, t))))), x))
         == Out(Fine, WithRest(t, HeadOf(d, x)))
  {
    var y := Show(DatagramVersion, Store(DatagramVersion, 5, x));
    assert Version(y) == 5 && Version(StoreAddr(Agent, d.agent, y)) == 5;
    hide Read, ReadAddr, WithRest, Store, StoreAddr, Put, PutAddr, Show;
    ReadsAt();
    StoresAt();
    ReadAddrAt(Agent, d.agent, Put(d.subId, Put(d.sequence, Put(d.upTime, t))), y);
  }

  function DatagramSteps(d: Datagram, x: St): St
    requires DatagramOk(d)
  {
    Line(SamplesInPacket(|d.samples|), Show(SysUpTime, Show(SequenceNo, ShowAddr(Agent, HeadOf(d, x)))))
  }

  lemma StepsVersion(d: Datagram, x: St)
    requires DatagramOk(d)
    ensures Version(DatagramSteps(d, x)) == 5
  {
    hide SamplesFit;
  }

  lemma SamplesLeft(d: Datagram, x: St)
    requires DatagramOk(d)
    ensures SamplesFit(d.samples)
    ensures ReadDatagram(WithRest(Encode(d), x))
         == ReadSamples(|d.samples|, WithRest(PutSamples(d.samples, []), DatagramSteps(d, x)))
  {
    hide Get, WithRest, Put, PutAddr, PutSamples, Line, Show, ShowAddr, ReadDatagramHead, ReadSamples, HeadOf,
         SamplesFit, AddressOk;
    GetsAt();
    StoresAt();
    DatagramHeadAt(d, Put(|d.samples|, PutSamples(d.samples, [])), x);
  }

  lemma DatagramAt(d: Datagram, x: St)
    requires DatagramOk(d)
    ensures var o := ReadDatagram(WithRest(Encode(d), x));
            && (SamplesDefined(d.samples) ==>
                  o == Out(Fine, WithRest([], SamplesAfter(d.samples, DatagramSteps(d, x)))))
            && (!SamplesDefined(d.samples) ==> o.sig == Exit(-12))
  {
    hide *;
    SamplesLeft(d, x);
    StepsVersion(d, x);
    SamplesAt(d.samples, [], DatagramSteps(d, x));
  }

  lemma DatagramStepsAfter(d: Datagram)
    requires DatagramOk(d)
    ensures DatagramSteps(d, St([], CLEARED, [], [], 0))
         == St([], CLEARED.(addr := map[Agent := d.agent],
                            num := map[DatagramVersion := 5, AgentSubId := d.subId,
                                       SequenceNo := d.sequence, SysUpTime := d.upTime]), [],
               [ShowNum(DatagramVersion, 5), ShowNum(AgentSubId, d.subId), ShowAddress(Agent, d.agent),
                ShowNum(SequenceNo, d.sequence), ShowNum(SysUpTime, d.upTime), SamplesInPacket(|d.samples|)], 0)
  {
    hide SamplesFit;
  }

  lemma DatagramAfter(d: Datagram)
    requires DatagramOk(d)
    ensures SamplesAfter(d.samples, DatagramSteps(d, St([], CLEARED, [], [], 0)))
         == St([], DatagramFields(d), SamplesPath(d.samples, []), DatagramLines(d), SamplesWork(d.samples))
  {
    DatagramStepsAfter(d);
    hide DatagramSteps, SamplesFit, SamplesFields, SamplesLines, SamplesPath, SamplesWork;
  }

  /** Decoding the encoding of a datagram ends at its end, without an abort, and
      has printed its values, in order, and stored the fields it carries; but it exits
      if and only if a sampled packet has a header protocol that is not defined. */
  lemma DecodeEncode(d: Datagram)
    requires DatagramOk(d)
    ensures SamplesDefined(d.samples) ==>
              Decode(Words(Bytes(Encode(d))))
              == Out(Fine, St([], DatagramFields(d), SamplesPath(d.samples, []), DatagramLines(d),
                              SamplesWork(d.samples)))
    ensures !SamplesDefined(d.samples) ==> Decode(Words(Bytes(Encode(d)))).sig == Exit(-12)
  {
    var x := St([], CLEARED, [], [], 0);
    hide ReadDatagram, Encode, WithRest, DatagramSteps, SamplesAfter, SamplesFit, DatagramFields, DatagramLines,
         SamplesPath, SamplesWork, SamplesDefined, Words, Bytes;
    WordsOfBytes(Encode(d));
    WithRestParts(Encode(d), x);
    DatagramAt(d, x);
    DatagramAfter(d);
    WithRestParts([], SamplesAfter(d.samples, DatagramSteps(d, x)));
  }

  // The words of a sample are put in front of what follows.

  lemma RecordMore(r: Record, t: seq<u32>)
    requires RecordOk(r) && Length(r) < 0x1_0000_0000
    ensures PutRecord(r, t) == PutRecord(r, []) + t
  {
    hide Put, PutBody, RecordOk, Length, Tag;
    BodyMore(r, t);
    PutMore(Length(r), PutBody(r, []), t);
    PutMore(Tag(r), Put(Length(r), PutBody(r, [])), t);
  }

  lemma {:induction false} RecordsMore(rs: seq<Record>, t: seq<u32>)
    requires RecordsOk(rs)
    ensures PutRecords(rs, t) == PutRecords(rs, []) + t
  {
    hide PutRecord, RecordOk, Length;
    if rs == [] {
      NothingMore(t);
    } else {
      assert rs[0] in rs;
      RecordsMore(rs[1..], t);
      RecordMore(rs[0], PutRecords(rs[1..], t));
      RecordMore(rs[0], PutRecords(rs[1..], []));
      Reassociated(PutRecord(rs[0], []), PutRecords(rs[1..], []), t);
    }
  }

  lemma Reassociated(a: seq<u32>, b: seq<u32>, c: seq<u32>)
    ensures a + (b + c) == (a + b) + c
  {
  }

  lemma SourceMore(s: FlowSample, ws: seq<u32>, t: seq<u32>)
    requires SampleOk(s)
    ensures PutSource(s, ws + t) == PutSource(s, ws) + t
  {
    hide Put, RecordsOk;
    PutsMore(t);
  }

  lemma PortsMore(s: FlowSample, ws: seq<u32>, t: seq<u32>)
    requires SampleOk(s)
    ensures PutPorts(s, ws + t) == PutPorts(s, ws) + t
  {
    hide Put, RecordsOk;
    PutsMore(t);
  }

  lemma SampleMore(s: FlowSample, t: seq<u32>)
    requires SampleFits(s)
    ensures PutSample(s, t) == PutSample(s, []) + t
  {
    hide Put, PutRecords, PutSource, PutPorts, RecordsOk;
    PutsMore(t);
    RecordsMore(s.records, t);
    var counted := Put(|s.records|, PutRecords(s.records, []));
    PortsMore(s, counted, t);
    var ports := PutPorts(s, counted);
    SourceMore(s, Put(s.meanSkip, Put(s.pool, Put(s.drops, ports))), t);
  }
}
