/** The frame of a version 5 datagram, as its length fields give it: samples behind
    a head of fixed size, each with a type, a length and a body. */
module Framing {
  import opened Xdr
  import opened SampleState
  import opened Reader
  import opened Records
  import opened FlowDecode
  import opened Context
  import opened Conservation
  import opened Gateways

  // Samples.

  predicate IsFlow(kind: u32) {
    kind == 1 || kind == 3
  }

  /** The state of a sample behind its type. */
  function Typed(x: St): St
    requires |x.rest| > 0
  {
    Line(SampleTag(x.rest[0]), Store(SampleType, x.rest[0], x.(rest := x.rest[1..])))
  }

  lemma TypeRead(x: St)
    requires |x.rest| > 0
    ensures Read(SampleType, x) == Out(Fine, Store(SampleType, x.rest[0], x.(rest := x.rest[1..])))
    ensures Num(Store(SampleType, x.rest[0], x.(rest := x.rest[1..])).f, SampleType) == x.rest[0]
    ensures Num(Typed(x).f, SampleType) == x.rest[0] && Version(Typed(x)) == Version(x)
    ensures Typed(x).rest == x.rest[1..]
  {
  }

  lemma FlowSampleTyped(x: St)
    requires Version(x) >= 5 && |x.rest| > 0 && IsFlow(x.rest[0])
    ensures ReadSample(x) == (var o := ReadFlowSample(x.rest[0] == 3, Typed(x));
                              if o.sig.Fine? then Out(Fine, Count(Line(EndSample, o.st))) else o)
  {
    hide ReadFlowSample, Line, Count;
    TypeRead(x);
  }

  /** An unknown sample is skipped by its length. */
  lemma SkippedSize(x: St)
    requires Version(x) >= 5 && |x.rest| > 0 && !IsFlow(x.rest[0]) && ReadSample(x).sig.Fine?
    ensures |x.rest| >= 2 && |x.rest| - |ReadSample(x).st.rest| == 2 + Quads(x.rest[1])
  {
    hide Line, Count, Store, ReadFlowSample, ReadFlowSampleV24;
    TypeRead(x);
  }

  lemma SampleLeaves(x: St)
    requires ReadSample(x).sig.Fine?
    ensures var o := ReadSample(x); o.st.rest == x.rest[|x.rest| - |o.st.rest|..]
  {
    hide ReadSample, Place;
    var o := ReadSample(x);
    SameIsSame(x, o);
    ReadSamplePlaced(Same(x, o), x);
  }

  /** A sample that is read fine ends where its length field says. */
  lemma SampleFramed(x: St)
    requires Version(x) >= 5 && |x.rest| < WRAPS && ReadSample(x).sig.Fine?
    ensures |x.rest| >= 2 && Quads(x.rest[1]) <= |x.rest| - 2
    ensures ReadSample(x).st.rest == x.rest[2 + Quads(x.rest[1])..]
  {
    SomeType(x);
    if IsFlow(x.rest[0]) {
      FlowSize(x);
    } else {
      SkippedSize(x);
    }
    hide ReadSample, Quads;
    SampleLeaves(x);
  }

  lemma SomeType(x: St)
    requires ReadSample(x).sig.Fine?
    ensures |x.rest| > 0
  {
    hide ReadSampleBody, Line, Count;
  }

  lemma FlowSize(x: St)
    requires Version(x) >= 5 && 0 < |x.rest| < WRAPS && IsFlow(x.rest[0]) && ReadSample(x).sig.Fine?
    ensures |x.rest| >= 2 && |x.rest| - |ReadSample(x).st.rest| == 2 + Quads(x.rest[1])
  {
    hide ReadFlowSample, ReadSample, WalkRecords, SumRecords, Quads;
    TypeRead(x);
    FlowSampleTyped(x);
    FlowSampleConserves(x.rest[0] == 3, Typed(x));
  }

  /** Samples that are read fine are framed by their length fields. */
  lemma {:induction false} SamplesFramed(n: nat, x: St)
    requires Version(x) >= 5 && EndsAgree(x) && |x.rest| < WRAPS && ReadSamples(n, x).sig.Fine?
    ensures WalkRecords(n, x.rest) == End(ReadSamples(n, x).st.rest)
  {
    hide ReadSample, EndsAgree, Quads, Version;
    if n == 0 {
    } else {
      SampleFramed(x);
      SampleEnds(x);
      SamplesFramed(n - 1, ReadSample(x).st);
    }
  }

  // Datagrams.

  /** The words in front of the samples: version, address, sub-id, two counters
      and the number of samples. */
  function HeadLen(words: seq<u32>): nat
    requires |words| >= 2
  {
    if words[1] == IP_V4 then 7 else 10
  }

  predicate HeadFits(words: seq<u32>) {
    |words| >= 2 && words[0] == 5 && |words| >= HeadLen(words)
  }

  lemma DatagramSplit(x: St)
    ensures ReadDatagram(x)
         == if Samples0(x).sig.Fine? then ReadSamples(SampleCount(x), Samples0(x).st) else Samples0(x)
  {
    hide ReadDatagramHead, ReadSamples, Line, Show, ShowAddr;
  }

  lemma Samples0Placed(c: Ctx, x: St)
    requires Fits(c, x) && c.cut && Clear(c, Samples0(x))
    ensures Samples0(Place(c, x)) == Placed(c, Samples0(x)) && SampleCount(Place(c, x)) == SampleCount(x)
  {
    hide ReadDatagramHead, Get, Line, Show, ShowAddr, Place;
    PrintsPlaced(c);
    ReadDatagramHeadPlaced(c, x);
    var o := ReadDatagramHead(x);
    if o.sig.Fine? {
      GetPlaced(c, 1, o.st);
      FirstWord(o.st);
      FirstWord(Place(c, o.st));
    }
  }

  lemma FirstWord(x: St)
    ensures var g := Get(1, x); (g.Got? <==> |x.rest| > 0) && (g.Got? ==> g.words[0] == x.rest[0])
  {
  }

  /** The state behind the version and the address. */
  function Addressed(words: seq<u32>): St
    requires HeadFits(words)
  {
    var x := Show(DatagramVersion, Store(DatagramVersion, 5, Start(words[1..])));
    ReadAddr(Agent, x).st
  }

  lemma AddressedRest(words: seq<u32>)
    requires HeadFits(words)
    ensures Version(Addressed(words)) == 5 && Addressed(words).rest == words[HeadLen(words) - 4..]
    ensures Read(DatagramVersion, Start(words)) == Out(Fine, Store(DatagramVersion, 5, Start(words[1..])))
    ensures Version(Show(DatagramVersion, Store(DatagramVersion, 5, Start(words[1..])))) == 5
    ensures ReadAddr(Agent, Show(DatagramVersion, Store(DatagramVersion, 5, Start(words[1..])))).sig.Fine?
  {
  }

  lemma CountersRead(x: St)
    requires Version(x) == 5 && |x.rest| >= 4
    ensures ReadSubId(x).sig.Fine? && Read(SequenceNo, ReadSubId(x).st).sig.Fine?
    ensures Read(SysUpTime, Read(SequenceNo, ReadSubId(x).st).st).sig.Fine?
    ensures var y := Read(SysUpTime, Read(SequenceNo, ReadSubId(x).st).st).st;
            y.rest == x.rest[3..] && Version(y) == 5
  {
  }

  /** The head of a version 5 datagram is read whenever its words are there. */
  lemma HeadRead(words: seq<u32>)
    requires HeadFits(words)
    ensures var o := ReadDatagramHead(Start(words));
            o.sig.Fine? && o.st.rest == words[HeadLen(words) - 1..] && Version(o.st) == 5
  {
    hide Read, ReadAddr, ReadSubId, Show, Version, Start;
    AddressedRest(words);
    CountersRead(Addressed(words));
    SliceOfSlice(words, HeadLen(words) - 4, 3);
  }

  lemma HeadFine(words: seq<u32>)
    requires HeadFits(words)
    ensures var s := Start(words);
            && Samples0(s).sig.Fine? && Samples0(s).st.rest == words[HeadLen(words)..]
            && SampleCount(s) == words[HeadLen(words) - 1]
            && Version(Samples0(s).st) == 5 && EndsAgree(Samples0(s).st)
  {
    hide ReadDatagramHead, Show, ShowAddr, EndsAgree, EndsOf;
    HeadRead(words);
    var o := ReadDatagramHead(Start(words));
    StartEnds(words);
    DatagramHeadEnds(Start(words));
    SliceOfSlice(words, HeadLen(words) - 1, 1);
    var y := Get(1, o.st).next;
    PrintsRest(y, SamplesInPacket(o.st.rest[0]));
    StoresKeep();
    SameEnds(o.st, Samples0(Start(words)).st);
  }

  lemma StartEnds(words: seq<u32>)
    ensures EndsAgree(Start(words))
  {
  }

  lemma PrintsRest(x: St, e: Event)
    ensures Line(e, Show(SysUpTime, Show(SequenceNo, ShowAddr(Agent, x)))).rest == x.rest
  {
  }
}
