/** Whole runs over flow samples and counter samples. */
module MixedRuns {
  import opened Xdr
  import opened SampleState
  import opened PerEntry
  import opened CounterRecords
  import opened CounterSamples
  import opened CounterFraming
  import opened FullDecode
  import C = Conservation
  import E = Encoding
  import F = FlowDecode
  import Forward
  import HandOver
  import Frames = Framing
  import G = Gateways
  import R = Records
  import Trip = DatagramTrip
  import X = Context

  // The endpoints.

  /** The endpoint fields are those of the path of the latest gateway record. */
  ghost predicate EndsAgree(c: Cut) {
    Num(c.f, DstPeerAs) == E.FirstAs(c.path) && Num(c.f, DstAs) == E.LastAs(c.path)
  }

  function Version(c: Cut): u32 {
    Num(c.f, DatagramVersion)
  }

  lemma SameEnds(a: Cut, b: Cut)
    requires EndsOf(a) == EndsOf(b)
    ensures EndsAgree(a) == EndsAgree(b) && Version(a) == Version(b)
  {
  }

  lemma EndsInWords(raw: seq<byte>, c: Cut)
    ensures G.EndsAgree(InWords(raw, c)) == EndsAgree(c) && R.Version(InWords(raw, c)) == Version(c)
  {
  }

  lemma EndsInBytes(at: nat, x: St, y: St)
    requires Advances(x, y)
    ensures G.EndsAgree(y) == EndsAgree(InBytes(at, x, y)) && R.Version(y) == Version(InBytes(at, x, y))
  {
  }

  lemma SampleEnds(raw: seq<byte>, c: Cut)
    requires EndsAgree(c) && ReadSample(raw, c).sig.Fine?
    ensures EndsAgree(ReadSample(raw, c).c) && Version(ReadSample(raw, c).c) == Version(c)
  {
    hide ReadCounterSample, F.ReadSample, EndsAgree, G.EndsAgree, Version, R.Version, CountersNext, InBytes, InWords;
    var x := InWords(raw, c);
    if CountersNext(x) {
      SameEnds(c, ReadCounterSample(raw, c).c);
    } else {
      EndsInWords(raw, c);
      G.SampleEnds(x);
      EndsInBytes(c.p.at, x, F.ReadSample(x).st);
    }
  }

  /** After any run of samples of both kinds that returns, the endpoint fields are those
      of the path of the latest gateway record. */
  lemma {:induction false} SamplesEnd(n: nat, raw: seq<byte>, c: Cut)
    requires EndsAgree(c) && ReadSamples(n, raw, c).sig.Fine?
    ensures EndsAgree(ReadSamples(n, raw, c).c) && Version(ReadSamples(n, raw, c).c) == Version(c)
    decreases n
  {
    hide ReadSample, EndsAgree, Version;
    if n == 0 {
    } else {
      SampleEnds(raw, c);
      SamplesEnd(n - 1, raw, ReadSample(raw, c).c);
    }
  }

  /** The state in front of the first sample. */
  function Head(raw: seq<byte>): Cut {
    InBytes(0, F.Start(Words(raw)), F.Samples0(F.Start(Words(raw))).st)
  }

  lemma DecodeIs(raw: seq<byte>)
    ensures var x := F.Start(Words(raw));
            Decode(raw) == if F.Samples0(x).sig.Fine? then ReadSamples(F.SampleCount(x), raw, Head(raw))
                           else Move(F.Samples0(x).sig, Head(raw))
  {
    hide F.Samples0, F.SampleCount, ReadSamples;
  }

  lemma HeadEnds(raw: seq<byte>)
    requires F.Samples0(F.Start(Words(raw))).sig.Fine?
    ensures EndsAgree(Head(raw))
  {
    var x := F.Start(Words(raw));
    Frames.StartEnds(Words(raw));
    G.Samples0Ends(x);
    hide F.Samples0, F.Start, EndsAgree, G.EndsAgree, InBytes;
    EndsInBytes(0, x, F.Samples0(x).st);
  }

  /** The same for every datagram, of any version, that is decoded to its end. */
  lemma DecodeEnds(raw: seq<byte>)
    requires Decode(raw).sig.Fine?
    ensures EndsAgree(Decode(raw).c)
  {
    hide Decode, ReadSamples, F.Samples0, F.SampleCount, EndsAgree, Head;
    DecodeIs(raw);
    HeadEnds(raw);
    SamplesEnd(F.SampleCount(F.Start(Words(raw))), raw, Head(raw));
  }

  // Datagrams without counter samples.

  /** Behind a reader of words lie the words that it left. */
  lemma LeftInWords(raw: seq<byte>, c: Cut, y: St)
    requires var x := InWords(raw, c); Advances(x, y) && y.rest == x.rest[|x.rest| - |y.rest|..]
    ensures InWords(raw, InBytes(c.p.at, InWords(raw, c), y)) == y
  {
    var x := InWords(raw, c);
    var n := |x.rest| - |y.rest|;
    if c.p.at <= |raw| {
      WordsAt(raw[c.p.at..], n);
      assert raw[c.p.at..][4 * n..] == raw[c.p.at + 4 * n..];
    }
  }

  lemma Handed(x: St)
    ensures CountersNext(x) <==> F.ReadSample(x).sig == Outside(CounterSample)
  {
    hide F.ReadSample;
    HandOver.HandsOver(x);
  }

  /** A sample that is not handed over is read as the readers of words read it. */
  lemma SampleAgrees(raw: seq<byte>, c: Cut)
    requires F.ReadSample(InWords(raw, c)).sig != Outside(CounterSample)
    ensures var x := InWords(raw, c);
            && var o := F.ReadSample(x);
            && ReadSample(raw, c) == Move(o.sig, InBytes(c.p.at, x, o.st))
            && (o.sig.Fine? ==> InWords(raw, ReadSample(raw, c).c) == o.st)
  {
    var x := InWords(raw, c);
    hide F.ReadSample, InWords, InBytes, CountersNext, ReadSample;
    Handed(x);
    FlowIs(raw, c);
    if F.ReadSample(x).sig.Fine? {
      Frames.SampleLeaves(x);
      LeftInWords(raw, c, F.ReadSample(x).st);
    }
  }

  lemma {:induction false} SamplesAgree(n: nat, raw: seq<byte>, c: Cut)
    requires F.ReadSamples(n, InWords(raw, c)).sig != Outside(CounterSample)
    ensures var x := InWords(raw, c);
            var o := F.ReadSamples(n, x);
            ReadSamples(n, raw, c) == Move(o.sig, InBytes(c.p.at, x, o.st))
    decreases n
  {
    hide F.ReadSample, ReadSample;
    var x := InWords(raw, c);
    if n == 0 {
    } else {
      SampleAgrees(raw, c);
      if F.ReadSample(x).sig.Fine? {
        SamplesAgree(n - 1, raw, ReadSample(raw, c).c);
      }
    }
  }

  lemma HeadInWords(raw: seq<byte>)
    requires F.Samples0(F.Start(Words(raw))).sig.Fine?
    ensures InWords(raw, Head(raw)) == F.Samples0(F.Start(Words(raw))).st
  {
    var x := F.Start(Words(raw));
    var o := F.Samples0(x);
    assert raw[0..] == raw;
    var c := Cut(Pos(0, 0), CLEARED, [], []);
    assert InWords(raw, c) == x;
    hide F.Samples0, F.Start, InWords, InBytes, X.Place;
    C.SameIsSame(x, o);
    Frames.Samples0Placed(C.Same(x, o), x);
    LeftInWords(raw, c, o.st);
  }

  /** Wherever the decode by words ends on its own, the decode by bytes is the same. */
  lemma DecodesAgree(raw: seq<byte>)
    requires F.Decode(Words(raw)).sig != Outside(CounterSample)
    ensures var x := F.Start(Words(raw));
            var o := F.Decode(Words(raw));
            Decode(raw) == Move(o.sig, InBytes(0, x, o.st))
  {
    var x := F.Start(Words(raw));
    DecodeIs(raw);
    Frames.DatagramSplit(x);
    hide Decode, F.ReadDatagram, F.Samples0, F.SampleCount, F.ReadSamples, ReadSamples;
    if F.Samples0(x).sig.Fine? {
      hide InWords;
      HeadInWords(raw);
      SamplesAgree(F.SampleCount(x), raw, Head(raw));
    }
  }

  /** So the decode inverts the encoding of datagrams of flow samples. */
  lemma DecodeEncode(d: E.Datagram)
    requires E.DatagramOk(d)
    ensures var raw := Bytes(E.Encode(d));
            && (E.SamplesDefined(d.samples) ==>
                  Decode(raw) == Move(Fine, Cut(Pos(|raw|, Trip.SamplesWork(d.samples)), E.DatagramFields(d),
                                                E.SamplesPath(d.samples, []), E.DatagramLines(d))))
            && (!E.SamplesDefined(d.samples) ==> Decode(raw).sig == Exit(-12))
  {
    hide Decode, F.Decode, E.Encode, E.DatagramOk, E.SamplesDefined;
    Trip.DecodeEncode(d);
    DecodesAgree(Bytes(E.Encode(d)));
    WordsOfBytes(E.Encode(d));
  }

  // Framing, in version 5.

  /** How far short of its padded length the sample at c ends. */
  function ShortOf(raw: seq<byte>, c: Cut): nat {
    if CountersNext(InWords(raw, c))
    then Shortfall(CustomsOf(InWords(raw, c).rest[0] == 4, raw, Pos(c.p.at + 4, c.p.work))) else 0
  }

  /** The sample at c ends at its padded length. */
  predicate EndsInFrame(raw: seq<byte>, c: Cut) {
    c.p.at + 8 <= |raw| && ReadSample(raw, c).c.p.at == c.p.at + 8 + 4 * Quads(Word32(raw, c.p.at + 4))
  }

  lemma FlowFramed(raw: seq<byte>, c: Cut)
    requires Version(c) >= 5 && |raw| < 0x8000_0000
    requires !CountersNext(InWords(raw, c)) && ReadSample(raw, c).sig.Fine?
    ensures EndsInFrame(raw, c)
  {
    hide F.ReadSample, ReadSample, CountersNext, Quads, Words, Word32;
    var x := InWords(raw, c);
    FlowIs(raw, c);
    Frames.SampleFramed(x);
    FirstWordAt(raw, c.p.at);
  }

  lemma CountersFramed(raw: seq<byte>, c: Cut)
    requires Version(c) >= 5 && |raw| < 0x8000_0000
    requires CountersNext(InWords(raw, c)) && ReadSample(raw, c).sig.Fine?
    ensures c.p.at + 8 <= |raw|
    ensures ReadSample(raw, c).c.p.at + ShortOf(raw, c) == c.p.at + 8 + 4 * Quads(Word32(raw, c.p.at + 4))
  {
    hide ReadCountersSample, ReadCountersSampleV24, Quads, Words, Word32, CustomsOf, Shortfall;
    var d := ReadType(raw, c).c;
    FirstWordAt(raw, c.p.at);
    assert Num(d.f, SampleType) == Word32(raw, c.p.at);
    CounterSampleEnds(Word32(raw, c.p.at) == 4, raw, d);
  }

  /** A sample that returns normally ends at its padded length, less what the records of
      45 bytes of a counter sample fall short of whole words. */
  lemma SampleFramed(raw: seq<byte>, c: Cut)
    requires Version(c) >= 5 && |raw| < 0x8000_0000 && ReadSample(raw, c).sig.Fine?
    ensures c.p.at + 8 <= |raw|
    ensures ReadSample(raw, c).c.p.at + ShortOf(raw, c) == c.p.at + 8 + 4 * Quads(Word32(raw, c.p.at + 4))
    ensures EndsInFrame(raw, c) <==> ShortOf(raw, c) == 0
  {
    hide ReadSample, CountersNext, Quads, Word32, InWords, Version, CustomsOf;
    if CountersNext(InWords(raw, c)) {
      CountersFramed(raw, c);
    } else {
      FlowFramed(raw, c);
    }
  }

  /** Every sample of a run ends at its padded length. */
  predicate InFrame(n: nat, raw: seq<byte>, c: Cut) {
    n == 0 || (EndsInFrame(raw, c) && InFrame(n - 1, raw, ReadSample(raw, c).c))
  }

  /** Every counter sample of a run has a multiple of four records of 45 bytes. */
  predicate AllWhole(n: nat, raw: seq<byte>, c: Cut) {
    n == 0 || (ShortOf(raw, c) == 0 && AllWhole(n - 1, raw, ReadSample(raw, c).c))
  }

  /** Where a walk over n samples ends that looks at their length fields only. */
  datatype Walk = Lost | End(at: nat)

  function WalkSamples(n: nat, raw: seq<byte>, at: nat): Walk {
    if n == 0 then End(at)
    else if at + 8 > |raw| then Lost
    else WalkSamples(n - 1, raw, at + 8 + 4 * Quads(Word32(raw, at + 4)))
  }

  /** A run that returns is framed by the length fields of its samples exactly when each
      of its counter samples has a multiple of four records of 45 bytes. */
  lemma {:induction false} RunFramed(n: nat, raw: seq<byte>, c: Cut)
    requires EndsAgree(c) && Version(c) >= 5 && |raw| < 0x8000_0000 && ReadSamples(n, raw, c).sig.Fine?
    ensures InFrame(n, raw, c) <==> AllWhole(n, raw, c)
    ensures InFrame(n, raw, c) ==> WalkSamples(n, raw, c.p.at) == End(ReadSamples(n, raw, c).c.p.at)
    decreases n
  {
    hide ReadSample, ShortOf, Version, EndsAgree, Quads, Word32;
    if n == 0 {
    } else {
      SampleFramed(raw, c);
      SampleEnds(raw, c);
      RunFramed(n - 1, raw, ReadSample(raw, c).c);
    }
  }

  /** How many samples a datagram says it has. */
  function Samples(raw: seq<byte>): u32 {
    F.SampleCount(F.Start(Words(raw)))
  }

  lemma StartWords(ws: seq<u32>)
    ensures F.Start(ws).rest == ws
  {
  }

  /** The state in front of the samples of a version 5 datagram whose head is there. */
  lemma HeadOf5(raw: seq<byte>)
    requires Frames.HeadFits(Words(raw))
    ensures F.Samples0(F.Start(Words(raw))).sig.Fine?
    ensures EndsAgree(Head(raw)) && Version(Head(raw)) == 5 && Head(raw).p.at == 4 * Frames.HeadLen(Words(raw))
  {
    hide F.Samples0, F.SampleCount, F.Start, EndsAgree, Version, R.Version, Words;
    StartWords(Words(raw));
    Frames.HeadFine(Words(raw));
    HeadEnds(raw);
    EndsInBytes(0, F.Start(Words(raw)), F.Samples0(F.Start(Words(raw))).st);
  }

  /** A version 5 datagram that is decoded to its end is framed by the length fields of
      its samples exactly when each of its counter samples has a multiple of four records
      of 45 bytes; the decode then ends where a walk over the samples ends. */
  lemma DatagramFramed(raw: seq<byte>)
    requires |raw| < 0x8000_0000 && Frames.HeadFits(Words(raw)) && Decode(raw).sig.Fine?
    ensures InFrame(Samples(raw), raw, Head(raw)) <==> AllWhole(Samples(raw), raw, Head(raw))
    ensures InFrame(Samples(raw), raw, Head(raw)) ==>
              WalkSamples(Samples(raw), raw, 4 * Frames.HeadLen(Words(raw))) == End(Decode(raw).c.p.at)
  {
    hide Decode, ReadSamples, F.Samples0, F.SampleCount, F.Start, EndsAgree, Version, WalkSamples, InFrame, AllWhole,
         Words, Head;
    DecodeIs(raw);
    HeadOf5(raw);
    RunFramed(Samples(raw), raw, Head(raw));
  }

  // A datagram that leaves the frame.

  lemma {:induction false} WordsOfBoth(ws: seq<u32>, bs: seq<byte>)
    ensures Words(Bytes(ws) + bs) == ws + Words(bs)
    decreases |ws|
  {
    hide Join, Split;
    if ws == [] {
      assert Bytes(ws) + bs == bs && ws + Words(bs) == Words(bs);
    } else {
      WordsOfBoth(ws[1..], bs);
      var w := Split(ws[0]);
      assert Bytes(ws) + bs == w + (Bytes(ws[1..]) + bs);
      assert (w + (Bytes(ws[1..]) + bs))[4..] == Bytes(ws[1..]) + bs;
      assert ws + Words(bs) == [ws[0]] + (ws[1..] + Words(bs));
    }
  }

  /** The head of a datagram with one sample, and the type of a counter sample. */
  const ONE_COUNTER_SAMPLE: seq<u32> := Forward.HEAD + [2]

  function OffFrame(): seq<byte> {
    Behind(Bytes(ONE_COUNTER_SAMPLE))
  }

  lemma OffFrameParts()
    ensures |OffFrame()| == 104
    ensures exists tail: seq<byte> :: OffFrame() == Bytes(ONE_COUNTER_SAMPLE) + tail
  {
    var tail := OF_65_BYTES + Repeat<byte>(49, UUID_LEN) + Repeat<byte>(0, 12);
    hide Bytes, Repeat, OF_65_BYTES, ONE_COUNTER_SAMPLE;
    LengthsOf65Bytes(Bytes(ONE_COUNTER_SAMPLE));
    OffFrameIs();
    assert OffFrame() == Bytes(ONE_COUNTER_SAMPLE) + tail;
  }

  lemma OffFrameWords()
    ensures var ws := Words(OffFrame());
            && |OffFrame()| == 104 && |ws| == 26 && ws[7] == 2
            && Frames.HeadFits(ws) && Frames.HeadLen(ws) == 7 && ws[6] == 1
  {
    hide Words, Bytes, OffFrame;
    OffFrameParts();
    var tail: seq<byte> :| OffFrame() == Bytes(ONE_COUNTER_SAMPLE) + tail;
    WordsOfBoth(ONE_COUNTER_SAMPLE, tail);
    assert ONE_COUNTER_SAMPLE == [5, 1, 0, 0, 0, 0, 1, 2];
  }

  lemma OffFrameHead()
    ensures F.Samples0(F.Start(Words(OffFrame()))).sig.Fine? && Samples(OffFrame()) == 1
    ensures var c := Head(OffFrame());
            && c.p.at == 28 && Version(c) == 5
            && CountersNext(InWords(OffFrame(), c)) && InWords(OffFrame(), c).rest[0] == 2
  {
    hide F.Samples0, F.SampleCount, F.Start, R.Version, Words, OffFrame, Head, InWords;
    var raw := OffFrame();
    OffFrameWords();
    HeadOf5(raw);
    Frames.HeadFine(Words(raw));
    HeadInWords(raw);
  }

  lemma CompactBody(raw: seq<byte>, c: Cut)
    requires c.p.at + 4 <= |raw| && Version(c) == 5 && Word32(raw, c.p.at) == 2
    ensures var d := ReadType(raw, c).c;
            && ReadType(raw, c).sig.Fine? && d.p.at == c.p.at + 4
            && ReadCounterBody(raw, d) == ReadCountersSample(false, raw, d)
  {
    hide ReadCountersSample, ReadCountersSampleV24, Word32, ReadType;
    TypeAt(raw, c);
    var d := ReadType(raw, c).c;
    assert Num(d.f, SampleType) == 2 && Num(d.f, DatagramVersion) == 5;
  }

  lemma OffFrameSample(c: Cut)
    requires c.p.at == 28 && Version(c) == 5
    requires CountersNext(InWords(OffFrame(), c)) && InWords(OffFrame(), c).rest[0] == 2
    ensures ReadSample(OffFrame(), c).sig.Fine? && ReadSample(OffFrame(), c).c.p.at == 101
  {
    var raw := OffFrame();
    OffFrameWords();
    FirstWordAt(raw, 28);
    hide ReadCountersSample, ReadCounterBody, InWords, CountersNext, ReadType, OffFrame, Word32, Words, Bytes,
         ReadSample, Behind;
    CompactBody(raw, c);
    OffFrameIs();
    FallsShort(Bytes(ONE_COUNTER_SAMPLE), ReadType(raw, c).c);
    CounterIs(raw, c);
  }

  /** A version 5 datagram with a counter sample of 65 bytes is decoded to its end, three
      bytes in front of where the length of that sample puts it. */
  lemma LeavesFrame()
    ensures var raw := OffFrame();
            && Decode(raw).sig.Fine? && Decode(raw).c.p.at == 101
            && WalkSamples(Samples(raw), raw, 28) == End(104)
  {
    hide ReadSample, F.Samples0, F.SampleCount, OffFrame, Words, InWords, CountersNext, Word32, Version;
    var raw := OffFrame();
    OffFrameHead();
    OffFrameWords();
    DecodeIs(raw);
    var c := Head(raw);
    OffFrameSample(c);
    assert ReadSamples(1, raw, c) == ReadSamples(0, raw, ReadSample(raw, c).c);
    assert Word32(raw, 32) == 65 by {
      LengthsOf65Bytes(Bytes(ONE_COUNTER_SAMPLE));
      OffFrameIs();
    }
    assert WalkSamples(1, raw, 28) == WalkSamples(0, raw, 104) by {
      assert 4 * Quads(65) == 68;
    }
  }

  lemma OffFrameIs()
    ensures OffFrame() == Behind(Bytes(ONE_COUNTER_SAMPLE)) && |Bytes(ONE_COUNTER_SAMPLE)| == 32
  {
  }
}
