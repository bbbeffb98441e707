/** Decoding inverts the encoding of datagrams of every version, with samples of every
    kind in any order, from whatever byte each of them starts at. */
module FullTrip {
  import opened Xdr
  import opened SampleState
  import opened PerEntry
  import opened ByteFields
  import opened EntryTrip
  import opened CounterRecords
  import opened CounterSamples
  import opened FullDecode
  import opened FullEncoding
  import B = CounterBlocks
  import E = Encoding
  import F = FlowDecode
  import M = MixedRuns
  import N = CounterEncoding
  import NT = CounterTrip
  import O = OldEncoding
  import OT = OldTrip
  import R = Records
  import Reader
  import SS = SampleState
  import T = RoundTrip
  import DT = DatagramTrip

  // Words at any byte.

  lemma WordInFront(w: u32, bs: seq<byte>)
    ensures Words(Split(w) + bs) == [w] + Words(bs)
  {
    hide Join, Split;
    var all := Split(w) + bs;
    assert all[0] == Split(w)[0] && all[1] == Split(w)[1] && all[2] == Split(w)[2] && all[3] == Split(w)[3];
    assert all[4..] == bs;
  }

  lemma {:induction false} WordsInFront(ws: seq<u32>, bs: seq<byte>)
    ensures Words(Bytes(ws) + bs) == ws + Words(bs)
  {
    hide Words, Split;
    if ws == [] {
      assert Bytes(ws) + bs == bs && [] + Words(bs) == Words(bs);
    } else {
      var rest := Bytes(ws[1..]) + bs;
      assert Bytes(ws) + bs == Split(ws[0]) + rest;
      WordInFront(ws[0], rest);
      WordsInFront(ws[1..], bs);
      assert ws + Words(bs) == [ws[0]] + (ws[1..] + Words(bs));
    }
  }

  lemma WordsLie(ws: seq<u32>, raw: seq<byte>, at: nat)
    requires Lies(Bytes(ws), raw, at)
    ensures at + 4 * |ws| <= |raw|
    ensures WordsFrom(raw, at) == ws + WordsFrom(raw, at + 4 * |ws|)
  {
    hide Bytes, Words;
    var n := at + 4 * |ws|;
    Cutting(raw, at, n);
    WordsInFront(ws, raw[n..]);
  }

  lemma Cutting(raw: seq<byte>, at: nat, n: nat)
    requires at <= n <= |raw|
    ensures raw[at..] == raw[at..n] + raw[n..]
  {
  }

  /** The words of the state in front of a sample. */
  lemma ViewAt(ws: seq<u32>, raw: seq<byte>, c: Cut)
    requires Lies(Bytes(ws), raw, c.p.at)
    ensures InWords(raw, c)
         == St(ws + WordsFrom(raw, c.p.at + 4 * |ws|), c.f, c.path, c.log, c.p.work)
  {
    hide Bytes, WordsFrom;
    WordsLie(ws, raw, c.p.at);
  }

  /** A sample that is in words. */
  predicate InOrder(ws: seq<u32>, c: Cut) {
    ws != [] && ws[0] != 2 && (ws[0] == 4 ==> Num(c.f, DatagramVersion) < 5)
  }

  lemma NotHandedOver(ws: seq<u32>, rest: seq<u32>, c: Cut)
    requires InOrder(ws, c)
    ensures !CountersNext(St(ws + rest, c.f, c.path, c.log, c.p.work))
  {
    assert (ws + rest)[0] == ws[0];
  }

  lemma BehindWords(at: nat, ws: seq<u32>, rest: seq<u32>, x: St, y: St)
    requires Advances(x, y) && x.rest == ws + rest && y.rest == rest
    ensures InBytes(at, x, y) == Cut(Pos(at + 4 * |ws|, y.work), y.f, y.path, y.log)
  {
  }

  /** A sample in words, wherever it lies, is read by the readers of words. */
  lemma WordSampleAt(ws: seq<u32>, raw: seq<byte>, c: Cut)
    requires Lies(Bytes(ws), raw, c.p.at) && InOrder(ws, c)
    ensures var rest := WordsFrom(raw, c.p.at + 4 * |ws|);
            && var o := F.ReadSample(St(ws + rest, c.f, c.path, c.log, c.p.work));
            && ReadSample(raw, c).sig == o.sig
            && (o.st.rest == rest ==>
                  ReadSample(raw, c).c == Cut(Pos(c.p.at + 4 * |ws|, o.st.work), o.st.f, o.st.path, o.st.log))
  {
    hide *;
    var rest := WordsFrom(raw, c.p.at + 4 * |ws|);
    ViewAt(ws, raw, c);
    NotHandedOver(ws, rest, c);
    FlowIs(raw, c);
    var x := St(ws + rest, c.f, c.path, c.log, c.p.work);
    var o := F.ReadSample(x);
    if o.st.rest == rest {
      BehindWords(c.p.at, ws, rest, x, o.st);
    }
  }

  // Samples.

  function SampleWork(s: Sample): nat {
    match s
    case Flow(flow) => DT.SampleWork(flow)
    case Counters(counters) => N.RecordsWork(counters.records) + 1
    case Unknown(_, _) => 1
    case OldFlow(legacy) => OT.OldSampleWork(legacy)
    case OldCounters(_) => 1
  }

  /** The state behind a sample. */
  function After(v: u32, s: Sample, c: Cut): Cut
    requires SampleOk(v, s)
  {
    Cut(Pos(c.p.at + |PutSample(v, s)|, c.p.work + SampleWork(s)), SampleFields(v, s, c.f), SamplePath(s, c.path),
        c.log + SampleLines(v, s))
  }

  lemma WithWords(ws: seq<u32>, c: Cut)
    ensures T.WithRest(ws, St([], c.f, c.path, c.log, c.p.work)) == St(ws, c.f, c.path, c.log, c.p.work)
    ensures R.Version(St([], c.f, c.path, c.log, c.p.work)) == Num(c.f, DatagramVersion)
  {
  }

  /** The sample at c is read to its end, or ends the program if it is not defined. */
  predicate Reads(v: u32, s: Sample, raw: seq<byte>, c: Cut) {
    hide ReadSample, SampleDefined, SampleOk, After;
    && SampleOk(v, s)
    && var m := ReadSample(raw, c);
       if SampleDefined(s) then m == Move(Fine, After(v, s, c)) else m.sig == Exit(-12)
  }

  // Flow samples of version 5.

  lemma FlowFirst(flow: E.FlowSample, c: Cut)
    requires E.SampleFits(flow)
    ensures InOrder(E.PutSample(flow, []), c)
  {
    hide E.PutSampleBody, E.SampleOk;
  }

  lemma FlowParts(flow: E.FlowSample, rest: seq<u32>, c: Cut)
    requires E.SampleFits(flow)
    ensures var x := St([], c.f, c.path, c.log, c.p.work);
            T.WithRest(rest, DT.SampleAfter(flow, x))
            == St(rest, E.SampleFields(flow, c.f), E.RecordsPath(flow.records, c.path), c.log + E.SampleLines(flow),
                  c.p.work + DT.SampleWork(flow))
  {
    hide E.SampleFits, E.SampleFields, E.SampleLines, E.RecordsPath, DT.SampleWork;
  }

  lemma FlowWordsAt(flow: E.FlowSample, rest: seq<u32>, c: Cut)
    requires E.SampleFits(flow) && Num(c.f, DatagramVersion) == 5
    ensures var o := F.ReadSample(St(E.PutSample(flow, []) + rest, c.f, c.path, c.log, c.p.work));
            && (E.RecordsDefined(flow.records) ==>
                  o == Out(Fine, St(rest, E.SampleFields(flow, c.f), E.RecordsPath(flow.records, c.path),
                                    c.log + E.SampleLines(flow), c.p.work + DT.SampleWork(flow))))
            && (!E.RecordsDefined(flow.records) ==> o.sig == Exit(-12))
  {
    hide *;
    var x := St([], c.f, c.path, c.log, c.p.work);
    DT.SampleMore(flow, rest);
    WithWords(E.PutSample(flow, rest), c);
    DT.SampleAt(flow, rest, x);
    DT.SampleStepsAfter(flow, x);
    FlowParts(flow, rest, c);
  }

  lemma FlowAt(v: u32, s: Sample, raw: seq<byte>, c: Cut)
    requires s.Flow? && SampleOk(v, s) && Lies(PutSample(v, s), raw, c.p.at) && Num(c.f, DatagramVersion) == v
    ensures Reads(v, s, raw, c)
  {
    hide ReadSample, F.ReadSample, WordsFrom, Lies, InOrder, E.PutSample, E.SampleFits, E.RecordsDefined,
         E.SampleFields, E.SampleLines, E.RecordsPath, DT.SampleWork, Bytes;
    var ws := E.PutSample(s.flow, []);
    FlowFirst(s.flow, c);
    FlowWordsAt(s.flow, WordsFrom(raw, c.p.at + 4 * |ws|), c);
    WordSampleAt(ws, raw, c);
  }

  // Flow samples of versions 2 and 4.

  lemma OldFlowFirst(v: u32, flow: O.OldSample, c: Cut)
    requires O.OldSampleOk(v, flow)
    ensures InOrder(O.PutOldSample(v, flow, []), c)
  {
    hide O.DataOk, O.ExtendedsOk;
  }

  lemma OldFlowParts(v: u32, flow: O.OldSample, rest: seq<u32>, c: Cut)
    requires O.OldSampleOk(v, flow)
    ensures var x := St([], c.f, c.path, c.log, c.p.work);
            T.WithRest(rest, OT.OldSampleAfter(v, flow, x))
            == St(rest, O.OldSampleFields(v, flow, c.f), O.ExtendedsPath(flow.extendeds, c.path),
                  c.log + O.OldSampleLines(v, flow), c.p.work + OT.OldSampleWork(flow))
  {
    hide O.OldSampleOk, O.OldSampleFields, O.OldSampleLines, O.ExtendedsPath, OT.OldSampleWork;
  }

  lemma OldFlowWordsAt(v: u32, flow: O.OldSample, rest: seq<u32>, c: Cut)
    requires O.OldSampleOk(v, flow) && Num(c.f, DatagramVersion) == v && (v == 2 || v == 4)
    ensures var o := F.ReadSample(St(O.PutOldSample(v, flow, []) + rest, c.f, c.path, c.log, c.p.work));
            && (O.DataDefined(flow.data) ==>
                  o == Out(Fine, St(rest, O.OldSampleFields(v, flow, c.f), O.ExtendedsPath(flow.extendeds, c.path),
                                    c.log + O.OldSampleLines(v, flow), c.p.work + OT.OldSampleWork(flow))))
            && (!O.DataDefined(flow.data) ==> o.sig == Exit(-12))
  {
    hide *;
    var x := St([], c.f, c.path, c.log, c.p.work);
    OT.OldSampleMore(v, flow, rest);
    WithWords(O.PutOldSample(v, flow, rest), c);
    OT.OldSampleAt(flow, rest, x);
    OT.OldSampleStepsAfter(v, flow, x);
    OldFlowParts(v, flow, rest, c);
  }

  lemma OldFlowAt(v: u32, s: Sample, raw: seq<byte>, c: Cut)
    requires s.OldFlow? && SampleOk(v, s) && Lies(PutSample(v, s), raw, c.p.at)
    requires Num(c.f, DatagramVersion) == v && (v == 2 || v == 4)
    ensures Reads(v, s, raw, c)
  {
    hide ReadSample, F.ReadSample, WordsFrom, Lies, InOrder, O.PutOldSample, O.OldSampleOk, O.DataDefined,
         O.OldSampleFields, O.OldSampleLines, O.ExtendedsPath, OT.OldSampleWork, Bytes;
    var ws := O.PutOldSample(v, s.oldFlow, []);
    OldFlowFirst(v, s.oldFlow, c);
    OldFlowWordsAt(v, s.oldFlow, WordsFrom(raw, c.p.at + 4 * |ws|), c);
    WordSampleAt(ws, raw, c);
  }

  // Samples of an unknown type.

  lemma UnknownParts(kind: u32, body: seq<byte>, rest: seq<u32>, c: Cut)
    requires |body| < 0x1_0000_0000
    ensures var x := St([], c.f, c.path, c.log, c.p.work);
            T.WithRest(rest, DT.UnknownSteps(kind, body, x))
            == St(rest, Typed(kind, c.f), c.path,
                  c.log + [SampleTag(kind), Skipped(true, kind, |body|), EndSample], c.p.work + 1)
  {
    assert c.log + [SampleTag(kind)] + [Skipped(true, kind, |body|)] + [EndSample]
        == c.log + [SampleTag(kind), Skipped(true, kind, |body|), EndSample];
  }

  lemma UnknownMore(kind: u32, body: seq<byte>, rest: seq<u32>)
    requires |body| < 0x1_0000_0000
    ensures E.Put(kind, E.PutStr(body, [])) + rest == E.Put(kind, E.PutStr(body, rest))
  {
    hide E.Put, E.PutStr;
    DT.NothingMore(rest);
    DT.ItemsMore(rest);
    DT.PutMore(kind, E.PutStr(body, []), rest);
  }

  lemma UnknownWordsAt(kind: u32, body: seq<byte>, rest: seq<u32>, c: Cut)
    requires (kind == 0 || kind > 4) && |body| < 0x1_0000_0000 && Num(c.f, DatagramVersion) == 5
    ensures F.ReadSample(St(E.Put(kind, E.PutStr(body, [])) + rest, c.f, c.path, c.log, c.p.work))
         == Out(Fine, St(rest, Typed(kind, c.f), c.path,
                         c.log + [SampleTag(kind), Skipped(true, kind, |body|), EndSample], c.p.work + 1))
  {
    hide *;
    UnknownMore(kind, body, rest);
    WithWords(E.Put(kind, E.PutStr(body, rest)), c);
    DT.UnknownAt(kind, body, rest, St([], c.f, c.path, c.log, c.p.work));
    UnknownParts(kind, body, rest, c);
  }

  lemma UnknownAt(v: u32, s: Sample, raw: seq<byte>, c: Cut)
    requires s.Unknown? && SampleOk(v, s) && Lies(PutSample(v, s), raw, c.p.at) && Num(c.f, DatagramVersion) == v
    ensures Reads(v, s, raw, c)
  {
    hide ReadSample, F.ReadSample, WordsFrom, Lies, E.PutStr, Bytes, Typed;
    var ws := E.Put(s.kind, E.PutStr(s.body, []));
    UnknownWordsAt(s.kind, s.body, WordsFrom(raw, c.p.at + 4 * |ws|), c);
    WordSampleAt(ws, raw, c);
  }

  // Counter samples.

  lemma TypeRead(kind: u32, tail: seq<byte>, raw: seq<byte>, c: Cut)
    requires Lies(Split(kind) + tail, raw, c.p.at)
    ensures Lies(tail, raw, c.p.at + 4)
    ensures ReadType(raw, c)
         == Move(Fine, Cut(Pos(c.p.at + 4, c.p.work), Typed(kind, c.f), c.path, c.log + [SampleTag(kind)]))
    ensures InWords(raw, c).rest != [] && InWords(raw, c).rest[0] == kind
  {
    InBuffer(Split(kind) + tail, raw, c.p.at);
    hide Lies, Split, Word32, ReadType, WordsFrom;
    LiesParts(Split(kind), tail, raw, c.p.at);
    WordLies(kind, raw, c.p.at);
    TypeAt(raw, c);
    FirstWordAt(raw, c.p.at);
  }

  function CountersStart(kind: u32, c: Cut): Cut {
    Cut(Pos(c.p.at + 4, c.p.work), Typed(kind, c.f), c.path, c.log + [SampleTag(kind)])
  }

  /** A sample of a type that is not handed to the readers of words. */
  lemma CountersRead(kind: u32, tail: seq<byte>, raw: seq<byte>, c: Cut, d: Cut)
    requires Lies(Split(kind) + tail, raw, c.p.at)
    requires kind == 2 || (kind == 4 && Num(c.f, DatagramVersion) == 5)
    requires ReadCounterBody(raw, CountersStart(kind, c)) == Move(Fine, d)
    ensures ReadSample(raw, c) == Move(Fine, Ended(d))
  {
    hide *;
    TypeRead(kind, tail, raw, c);
    TypeNext(kind, raw, c);
    CounterIs(raw, c);
    CloseIs(d);
  }

  lemma TypeNext(kind: u32, raw: seq<byte>, c: Cut)
    requires InWords(raw, c).rest != [] && InWords(raw, c).rest[0] == kind
    requires kind == 2 || (kind == 4 && Num(c.f, DatagramVersion) == 5)
    ensures CountersNext(InWords(raw, c))
    ensures Cut(Pos(c.p.at + 4, c.p.work), Typed(kind, c.f), c.path, c.log + [SampleTag(kind)])
         == CountersStart(kind, c)
  {
    hide WordsFrom;
  }

  lemma CloseIs(d: Cut)
    ensures FullDecode.Close(d) == Ended(d)
  {
  }

  lemma CountersLog(kind: u32, lines: seq<Event>, log: seq<Event>)
    ensures log + [SampleTag(kind)] + lines + [EndSample] == log + ([SampleTag(kind)] + lines + [EndSample])
  {
  }

  /** One more line, and one more iteration. */
  function Ended(d: Cut): Cut {
    Cut(Pos(d.p.at, d.p.work + 1), d.f, d.path, d.log + [EndSample])
  }

  lemma CountersShape(v: u32, s: Sample, c: Cut)
    requires s.Counters? && SampleOk(v, s)
    ensures N.SampleOk(s.counters) && |N.PutSampleBody(s.counters)| < 0x1_0000_0000
    ensures var kind := if s.counters.expanded then 4 else 2;
            && PutSample(v, s) == Split(kind) + N.PutSample(s.counters) && NT.SampleFits(s.counters)
            && After(v, s, c) == Ended(NT.SampleAfter(s.counters, CountersStart(kind, c)))
  {
    hide Split, Typed, N.PutSample, N.PutSampleBody, N.SampleOk, N.SampleFields, N.SampleLines, N.RecordsWork;
    CountersLog(if s.counters.expanded then 4 else 2, N.SampleLines(s.counters), c.log);
  }

  lemma CountersBody(v: u32, kind: u32, raw: seq<byte>, c: Cut)
    requires Num(c.f, DatagramVersion) == v
    ensures var d := CountersStart(kind, c);
            ReadCounterBody(raw, d) == if v < 5 then ReadCountersSampleV24(raw, d)
                                       else ReadCountersSample(kind == 4, raw, d)
  {
    hide ReadCountersSampleV24, ReadCountersSample;
  }

  lemma FineReads(v: u32, s: Sample, raw: seq<byte>, c: Cut)
    requires SampleOk(v, s) && SampleDefined(s) && ReadSample(raw, c) == Move(Fine, After(v, s, c))
    ensures Reads(v, s, raw, c)
  {
    hide ReadSample, After, SampleDefined, SampleOk;
  }

  lemma CountersDefined(s: Sample)
    requires s.Counters? || s.OldCounters?
    ensures SampleDefined(s)
  {
  }

  lemma CountersAt(v: u32, s: Sample, raw: seq<byte>, c: Cut)
    requires s.Counters? && SampleOk(v, s) && v == 5 && Lies(PutSample(v, s), raw, c.p.at)
    requires Num(c.f, DatagramVersion) == v
    ensures Reads(v, s, raw, c)
  {
    hide *;
    var kind := if s.counters.expanded then 4 else 2;
    CountersShape(v, s, c);
    TypeRead(kind, N.PutSample(s.counters), raw, c);
    CountersBody(v, kind, raw, c);
    StartPlace(kind, c);
    NT.CounterSampleAt(s.counters, raw, CountersStart(kind, c));
    CountersRead(kind, N.PutSample(s.counters), raw, c, NT.SampleAfter(s.counters, CountersStart(kind, c)));
    CountersDefined(s);
    FineReads(v, s, raw, c);
  }

  lemma StartPlace(kind: u32, c: Cut)
    ensures CountersStart(kind, c).p.at == c.p.at + 4
  {
  }

  lemma OldCountersShape(v: u32, s: Sample, c: Cut)
    requires s.OldCounters? && SampleOk(v, s)
    ensures PutSample(v, s) == Split(2) + N.PutOldCounters(s.oldCounters) && N.OldCountersOk(s.oldCounters)
    ensures After(v, s, c) == Ended(B.OldAfter(s.oldCounters, CountersStart(2, c)))
  {
    hide Split, Typed, N.PutOldCounters, N.OldCountersOk, N.OldCountersFields, N.OldCountersLines;
    CountersLog(2, N.OldCountersLines(s.oldCounters), c.log);
  }

  lemma OldCountersAt(v: u32, s: Sample, raw: seq<byte>, c: Cut)
    requires s.OldCounters? && SampleOk(v, s) && Lies(PutSample(v, s), raw, c.p.at)
    requires Num(c.f, DatagramVersion) == v && (v == 2 || v == 4)
    ensures Reads(v, s, raw, c)
  {
    hide *;
    OldCountersShape(v, s, c);
    TypeRead(2, N.PutOldCounters(s.oldCounters), raw, c);
    CountersBody(v, 2, raw, c);
    StartPlace(2, c);
    B.OldCountersAt(s.oldCounters, raw, CountersStart(2, c));
    CountersRead(2, N.PutOldCounters(s.oldCounters), raw, c, B.OldAfter(s.oldCounters, CountersStart(2, c)));
    CountersDefined(s);
    FineReads(v, s, raw, c);
  }

  /** Every sample, of any kind, wherever it lies, is read to its end. */
  lemma SampleAt(v: u32, s: Sample, raw: seq<byte>, c: Cut)
    requires SampleOk(v, s) && Lies(PutSample(v, s), raw, c.p.at)
    requires Num(c.f, DatagramVersion) == v && (v == 2 || v == 4 || v == 5)
    ensures Reads(v, s, raw, c)
  {
    hide *;
    KindOk(v, s);
    match s
    case Flow(_) => FlowAt(v, s, raw, c);
    case Counters(_) => CountersAt(v, s, raw, c);
    case Unknown(_, _) => UnknownAt(v, s, raw, c);
    case OldFlow(_) => OldFlowAt(v, s, raw, c);
    case OldCounters(_) => OldCountersAt(v, s, raw, c);
  }

  lemma KindOk(v: u32, s: Sample)
    requires SampleOk(v, s)
    ensures s.Flow? || s.Counters? || s.Unknown? ==> v == 5
    ensures s.OldFlow? || s.OldCounters? ==> v != 5
  {
    hide E.SampleFits, N.SampleOk, N.PutSampleBody, O.OldSampleOk, N.OldCountersOk;
  }

  // Runs of samples.

  lemma FlowVersion(flow: E.FlowSample, c: Cut)
    requires E.SampleFits(flow) && Num(c.f, DatagramVersion) == 5
    ensures Num(E.SampleFields(flow, c.f), DatagramVersion) == 5
  {
    hide E.SampleFits, E.SampleFields, E.SampleLines, E.RecordsPath, DT.SampleWork;
    DT.SampleVersion(flow, St([], c.f, c.path, c.log, c.p.work));
  }

  lemma OldFlowVersion(v: u32, flow: O.OldSample, c: Cut)
    requires O.OldSampleOk(v, flow) && Num(c.f, DatagramVersion) == v
    ensures Num(O.OldSampleFields(v, flow, c.f), DatagramVersion) == v
  {
    hide O.OldSampleOk, O.OldSampleFields, O.OldSampleLines, O.ExtendedsPath, OT.OldSampleWork;
    OT.OldSampleVersion(flow, St([], c.f, c.path, c.log, c.p.work));
  }

  lemma {:induction false} CounterRecordsVersion(rs: seq<N.CounterRecord>, f: Fields)
    requires N.RecordsFit(rs)
    ensures Num(N.RecordsFields(rs, f), DatagramVersion) == Num(f, DatagramVersion)
  {
    hide N.RecordOk, N.PutBody, N.VlanOf;
    if rs == [] {
    } else {
      assert rs[0] in rs;
      CounterRecordsVersion(rs[1..],
        if N.VlanOf(rs[0]) == [] then f else f.(num := f.num[InVlan := N.VlanOf(rs[0])[0]]));
    }
  }

  lemma CountersVersion(s: N.CounterSample, kind: u32, f: Fields)
    requires N.SampleOk(s)
    ensures Num(N.SampleFields(s, Typed(kind, f)), DatagramVersion) == Num(f, DatagramVersion)
  {
    hide N.RecordsFields, N.RecordsFit;
    var g := Typed(kind, f);
    CounterRecordsVersion(s.records,
      g.(num := g.num[SamplesGenerated := s.sequence][DsClass := s.dsClass][DsIndex := s.dsIndex]));
  }

  lemma OldCountersVersion(s: N.OldCounters, f: Fields)
    requires N.OldCountersOk(s)
    ensures Num(N.OldCountersFields(s, Typed(2, f)), DatagramVersion) == Num(f, DatagramVersion)
  {
    hide N.BlockFormat;
  }

  lemma SampleVersion(v: u32, s: Sample, c: Cut)
    requires SampleOk(v, s) && Num(c.f, DatagramVersion) == v
    ensures Num(SampleFields(v, s, c.f), DatagramVersion) == v
  {
    hide E.SampleFits, E.SampleFields, O.OldSampleOk, O.OldSampleFields, N.SampleOk, N.PutSampleBody, N.SampleFields,
         N.OldCountersOk, N.OldCountersFields;
    match s
    case Flow(flow) => FlowVersion(flow, c);
    case Counters(counters) => CountersVersion(counters, if counters.expanded then 4 else 2, c.f);
    case Unknown(_, _) =>
    case OldFlow(flow) => OldFlowVersion(v, flow, c);
    case OldCounters(block) => OldCountersVersion(block, c.f);
  }

  function SamplesWork(ss: seq<Sample>): nat {
    if ss == [] then 0 else SampleWork(ss[0]) + SamplesWork(ss[1..])
  }

  function AllAfter(v: u32, ss: seq<Sample>, c: Cut): Cut
    requires SamplesOk(v, ss)
  {
    Cut(Pos(c.p.at + |PutSamples(v, ss)|, c.p.work + SamplesWork(ss)), SamplesFields(v, ss, c.f),
        SamplesPath(ss, c.path), c.log + SamplesLines(v, ss))
  }

  lemma AllAfterStep(v: u32, ss: seq<Sample>, c: Cut)
    requires ss != [] && SamplesOk(v, ss)
    ensures SampleOk(v, ss[0]) && SamplesOk(v, ss[1..])
    ensures AllAfter(v, ss, c) == AllAfter(v, ss[1..], After(v, ss[0], c))
    ensures PutSamples(v, ss) == PutSample(v, ss[0]) + PutSamples(v, ss[1..])
  {
    hide SampleOk, PutSample, SampleFields, SampleLines, SamplePath, SampleWork;
    assert ss[0] in ss && forall s :: s in ss[1..] ==> s in ss;
    assert c.log + SamplesLines(v, ss) == c.log + SampleLines(v, ss[0]) + SamplesLines(v, ss[1..]);
  }

  lemma NoneAfter(v: u32, c: Cut)
    ensures AllAfter(v, [], c) == c && PutSamples(v, []) == []
  {
    assert c.log + [] == c.log;
  }

  lemma AfterPlace(v: u32, s: Sample, c: Cut)
    requires SampleOk(v, s) && Num(c.f, DatagramVersion) == v
    ensures After(v, s, c).p.at == c.p.at + |PutSample(v, s)| && Num(After(v, s, c).f, DatagramVersion) == v
  {
    hide SampleOk, PutSample, SampleFields, SampleLines, SamplePath, SampleWork;
    SampleVersion(v, s, c);
  }

  lemma DefinedParts(ss: seq<Sample>)
    requires ss != []
    ensures SamplesDefined(ss) <==> SampleDefined(ss[0]) && SamplesDefined(ss[1..])
  {
    hide SampleDefined;
    assert ss == [ss[0]] + ss[1..];
  }

  lemma ReadParts(v: u32, s: Sample, raw: seq<byte>, c: Cut)
    requires SampleOk(v, s) && Reads(v, s, raw, c)
    ensures SampleDefined(s) ==> ReadSample(raw, c) == Move(Fine, After(v, s, c))
    ensures !SampleDefined(s) ==> ReadSample(raw, c).sig == Exit(-12)
  {
    hide SampleOk, SampleDefined, ReadSample, After;
  }

  lemma SamplesStep(n: nat, raw: seq<byte>, c: Cut)
    requires n > 0
    ensures var m := ReadSample(raw, c);
            ReadSamples(n, raw, c) == if m.sig.Fine? then ReadSamples(n - 1, raw, m.c) else m
    ensures ReadSamples(0, raw, c) == Move(Fine, c)
  {
    hide ReadSample;
  }

  /** Any run of samples is read to its end. */
  lemma {:induction false} SamplesAt(v: u32, ss: seq<Sample>, raw: seq<byte>, c: Cut)
    requires SamplesOk(v, ss) && Lies(PutSamples(v, ss), raw, c.p.at)
    requires Num(c.f, DatagramVersion) == v && (v == 2 || v == 4 || v == 5)
    ensures SamplesDefined(ss) ==> ReadSamples(|ss|, raw, c) == Move(Fine, AllAfter(v, ss, c))
    ensures !SamplesDefined(ss) ==> ReadSamples(|ss|, raw, c).sig == Exit(-12)
  {
    hide *;
    if ss == [] {
      NoneAfter(v, c);
      SamplesStep(1, raw, c);
      NoneUndefined();
    } else {
      AllAfterStep(v, ss, c);
      LiesParts(PutSample(v, ss[0]), PutSamples(v, ss[1..]), raw, c.p.at);
      SampleAt(v, ss[0], raw, c);
      ReadParts(v, ss[0], raw, c);
      DefinedParts(ss);
      SamplesStep(|ss|, raw, c);
      if SampleDefined(ss[0]) {
        AfterPlace(v, ss[0], c);
        SamplesAt(v, ss[1..], raw, After(v, ss[0], c));
      }
    }
  }

  lemma NoneUndefined()
    ensures SamplesDefined([])
  {
  }

  // Datagrams.

  /** The parts in front of the samples, as the datagrams of either format have them. */
  function NewHead(d: Datagram): E.Datagram {
    E.Datagram(d.agent, d.subId, d.sequence, d.upTime, [])
  }

  function OldHead(d: Datagram): O.OldDatagram {
    O.OldDatagram(d.version, d.agent, d.sequence, d.upTime, [])
  }

  function HeadRead(d: Datagram, x: St): St {
    if d.version == 5 then DT.HeadOf(NewHead(d), x) else OT.OldTop(OldHead(d), x)
  }

  lemma HeadAt(d: Datagram, t: seq<u32>, x: St)
    requires DatagramOk(d)
    ensures F.ReadDatagramHead(T.WithRest(PutHead(d, t), x)) == Out(Fine, T.WithRest(t, HeadRead(d, x)))
  {
    hide F.ReadDatagramHead, T.WithRest, E.Put, E.PutAddr, E.AddressOk, DT.HeadOf, OT.OldTop, SamplesOk;
    if d.version == 5 {
      DT.DatagramHeadAt(NewHead(d), t, x);
    } else {
      OT.OldTopAt(OldHead(d), t, x);
    }
  }

  function Started(n: u32, y: St): St {
    Reader.Line(SamplesInPacket(n),
                Reader.Show(SysUpTime, Reader.Show(SequenceNo, Reader.ShowAddr(Agent, y))))
  }

  lemma CountTaken(n: u32, t: seq<u32>, y: St)
    ensures Reader.Get(1, T.WithRest(E.Put(n, t), y)) == SS.Got.Got([n], T.WithRest(t, y))
    ensures Started(n, T.WithRest(t, y)) == T.WithRest(t, Started(n, y))
    ensures T.WithRest(E.Put(n, t), y).rest[0] == n
  {
    T.GetsAt();
    assert E.Put(n, t)[..1] == [n];
  }

  lemma CountAt(d: Datagram, n: u32, t: seq<u32>, x: St)
    requires DatagramOk(d)
    ensures F.Samples0(T.WithRest(PutHead(d, E.Put(n, t)), x)) == Out(Fine, T.WithRest(t, Started(n, HeadRead(d, x))))
    ensures F.SampleCount(T.WithRest(PutHead(d, E.Put(n, t)), x)) == n
  {
    hide F.ReadDatagramHead, T.WithRest, E.Put, PutHead, HeadRead, DatagramOk, Reader.Get, Reader.Line, Reader.Show,
         Reader.ShowAddr;
    HeadAt(d, E.Put(n, t), x);
    CountTaken(n, t, HeadRead(d, x));
  }

  lemma HeadAfter(d: Datagram)
    requires DatagramOk(d)
    ensures Started(|d.samples|, HeadRead(d, St([], CLEARED, [], [], 0))) == St([], HeadFields(d), [], HeadLines(d), 0)
  {
    hide SamplesOk;
    var y := Started(|d.samples|, HeadRead(d, St([], CLEARED, [], [], 0)));
    assert y.log == HeadLines(d);
    assert y.f.num == HeadFields(d).num;
  }

  lemma HeadMore(d: Datagram, n: u32, t: seq<u32>)
    ensures PutHead(d, E.Put(n, [])) + t == PutHead(d, E.Put(n, t))
  {
    hide E.Put, E.PutAddr;
    DT.PutsMore(t);
    DT.ItemsMore(t);
  }

  /** The state in front of the first sample. */
  function First(d: Datagram): Cut
    requires DatagramOk(d)
  {
    Cut(Pos(4 * |PutHead(d, E.Put(|d.samples|, []))|, 0), HeadFields(d), [], HeadLines(d))
  }

  lemma Advanced(hw: seq<u32>, t: seq<u32>, f: Fields, log: seq<Event>)
    ensures Advances(F.Start(hw + t), St(t, f, [], log, 0))
  {
  }

  lemma StartIs(hw: seq<u32>, t: seq<u32>)
    ensures F.Start(hw + t) == T.WithRest(hw + t, St([], CLEARED, [], [], 0)) && F.Start(hw + t).rest == hw + t
  {
  }

  /** The head is read to its end, and the number of samples taken from it. */
  lemma HeadDecoded(d: Datagram, raw: seq<byte>, t: seq<u32>)
    requires DatagramOk(d) && Words(raw) == PutHead(d, E.Put(|d.samples|, [])) + t
    ensures F.Samples0(F.Start(Words(raw))).sig == Fine && F.SampleCount(F.Start(Words(raw))) == |d.samples|
    ensures M.Head(raw) == First(d)
  {
    hide *;
    var n := CountOf(d);
    var hw := PutHead(d, E.Put(n, []));
    var x := St([], CLEARED, [], [], 0);
    HeadMore(d, n, t);
    StartIs(hw, t);
    CountAt(d, n, t, x);
    HeadAfter(d);
    T.WithRestParts(t, Started(n, HeadRead(d, x)));
    HeadIs(raw, hw, t, HeadFields(d), HeadLines(d));
    FirstIs(d);
  }

  lemma CountOf(d: Datagram) returns (n: u32)
    requires DatagramOk(d)
    ensures n == |d.samples|
  {
    n := |d.samples|;
  }

  lemma FirstIs(d: Datagram)
    requires DatagramOk(d)
    ensures First(d) == Cut(Pos(4 * |PutHead(d, E.Put(|d.samples|, []))|, 0), HeadFields(d), [], HeadLines(d))
  {
    hide DatagramOk, PutHead, HeadFields, HeadLines;
  }

  lemma HeadIs(raw: seq<byte>, hw: seq<u32>, t: seq<u32>, f: Fields, log: seq<Event>)
    requires Words(raw) == hw + t && F.Samples0(F.Start(Words(raw))).st == St(t, f, [], log, 0)
    ensures M.Head(raw) == Cut(Pos(4 * |hw|, 0), f, [], log)
  {
    hide F.Samples0, F.Start, Words, InBytes;
    StartIs(hw, t);
    BehindWords(0, hw, t, F.Start(hw + t), St(t, f, [], log, 0));
  }

  /** Decoding the encoding of any datagram, of version 2, 4 or 5 and with flow samples,
      counter samples and unknown samples in any order, ends at its end without an abort,
      has printed its values in order, and leaves the fields it carries; but it exits if
      and only if a sampled packet has a header protocol that is not defined. */
  lemma DecodeEncode(d: Datagram)
    requires DatagramOk(d)
    ensures SamplesDefined(d.samples) ==>
              Decode(Encode(d)) == Move(Fine, Cut(Pos(|Encode(d)|, SamplesWork(d.samples)), DatagramFields(d),
                                                  SamplesPath(d.samples, []), DatagramLines(d)))
    ensures !SamplesDefined(d.samples) ==> Decode(Encode(d)).sig == Exit(-12)
  {
    hide *;
    var raw := Encode(d);
    EncodeParts(d);
    var hw, bs := PutHead(d, E.Put(|d.samples|, [])), PutSamples(d.version, d.samples);
    WordsInFront(hw, bs);
    HeadDecoded(d, raw, Words(bs));
    M.DecodeIs(raw);
    LiesBetween(Bytes(hw), bs, []);
    assert Bytes(hw) + bs + [] == Bytes(hw) + bs;
    FirstPlace(d);
    SamplesAt(d.version, d.samples, raw, First(d));
    AllAfterFirst(d);
  }

  lemma EncodeParts(d: Datagram)
    requires DatagramOk(d)
    ensures |d.samples| < 0x1_0000_0000 && SamplesOk(d.version, d.samples)
    ensures d.version == 2 || d.version == 4 || d.version == 5
    ensures Encode(d) == Bytes(PutHead(d, E.Put(|d.samples|, []))) + PutSamples(d.version, d.samples)
    ensures |Encode(d)| == 4 * |PutHead(d, E.Put(|d.samples|, []))| + |PutSamples(d.version, d.samples)|
  {
    hide Bytes, PutHead, PutSamples, SamplesOk;
  }

  lemma FirstPlace(d: Datagram)
    requires DatagramOk(d)
    ensures First(d).p.at == 4 * |PutHead(d, E.Put(|d.samples|, []))| && Num(First(d).f, DatagramVersion) == d.version
    ensures |Bytes(PutHead(d, E.Put(|d.samples|, [])))| == 4 * |PutHead(d, E.Put(|d.samples|, []))|
  {
    hide Bytes, PutHead, SamplesOk;
  }

  lemma AllAfterFirst(d: Datagram)
    requires DatagramOk(d)
    ensures SamplesOk(d.version, d.samples)
    ensures AllAfter(d.version, d.samples, First(d))
         == Cut(Pos(|Encode(d)|, SamplesWork(d.samples)), DatagramFields(d), SamplesPath(d.samples, []),
                DatagramLines(d))
  {
    hide Bytes, PutHead, PutSamples, SamplesOk, SamplesFields, SamplesPath, SamplesLines, SamplesWork, HeadFields,
         HeadLines;
  }
}
