/** What every flow decode keeps, whatever the bytes: the record readers together
    consume exactly what the lengths on the wire say. */
module Conservation {
  import opened Xdr
  import opened SampleState
  import opened Reader
  import opened Records
  import opened FlowDecode
  import opened Context

  /** Where a walk over n records ends that looks at their length fields only. */
  datatype Walk = Lost | End(rest: seq<u32>)

  function WalkRecords(n: nat, ws: seq<u32>): (w: Walk)
    ensures w.End? ==> |w.rest| <= |ws|
  {
    if n == 0 then End(ws)
    else if |ws| < 2 || Quads(ws[1]) > |ws| - 2 then Lost
    else WalkRecords(n - 1, ws[2 + Quads(ws[1])..])
  }

  /** The words of n records: a tag, a length and the padded body each. */
  function SumRecords(n: nat, ws: seq<u32>): nat
    requires WalkRecords(n, ws).End?
  {
    if n == 0 then 0 else 2 + Quads(ws[1]) + SumRecords(n - 1, ws[2 + Quads(ws[1])..])
  }

  /** The context that replaces the words a reader left by themselves. */
  function Same(x: St, o: Out): Ctx {
    Ctx(true, |o.st.rest|, if |o.st.rest| <= |x.rest| then x.rest[|x.rest| - |o.st.rest|..] else [], [], [], 0)
  }

  lemma SameIsSame(x: St, o: Out)
    requires Advances(x, o.st)
    ensures Place(Same(x, o), x) == x
    ensures Fits(Same(x, o), o.st) && Place(Same(x, o), o.st).rest == x.rest[|x.rest| - |o.st.rest|..]
  {
    var n := |x.rest| - |o.st.rest|;
    assert x.rest[..n] + x.rest[n..] == x.rest;
    assert [] + x.log[0..] == x.log;
  }

  /** A record body leaves the words behind it: those it did not consume. */
  lemma BodyLeaves(tag: u32, len: u32, x: St)
    requires ReadElementBody(tag, len, x).sig.Fine?
    ensures var o := ReadElementBody(tag, len, x); o.st.rest == x.rest[|x.rest| - |o.st.rest|..]
  {
    hide ReadRecord, SkipRecord, Known, Place;
    var o := ReadElementBody(tag, len, x);
    SameIsSame(x, o);
    if Known(tag) {
      ReadRecordPlaced(Same(x, o), tag, x);
    } else {
      SkipRecordPlaced(Same(x, o), false, tag, len, x);
    }
  }

  lemma PartsConsume(ps: seq<Part>, x: St)
    requires ps != [] && !ps[0].Flagged? && (ps[0].B? ==> ps[0].n > 0) && ReadParts(ps, x).sig.Fine?
    ensures |ReadParts(ps, x).st.rest| < |x.rest|
  {
    hide SampledPacket;
    if ps[0].Packet? {
      PacketConsumes(x);
    }
  }

  lemma PacketConsumes(x: St)
    requires SampledPacket(x).sig.Fine?
    ensures |SampledPacket(x).st.rest| < |x.rest|
  {
    hide StrippedOf, ReadHeaderBytes, DecodeHeader;
  }

  lemma FlatPartsStart(t: u32)
    ensures FlatParts(t) != [] ==> var p := FlatParts(t)[0]; !p.Flagged? && (p.B? ==> p.n > 0)
  {
  }

  lemma ReadsConsume()
    ensures forall d, x {:trigger Read(d, x)} :: Read(d, x).sig.Fine? ==> |Read(d, x).st.rest| < |x.rest|
    ensures forall a, x {:trigger ReadAddr(a, x)} :: ReadAddr(a, x).sig.Fine? ==> |ReadAddr(a, x).st.rest| < |x.rest|
    ensures forall s, room: BufLen, x {:trigger ReadStr(s, room, x)} ::
              ReadStr(s, room, x).sig.Fine? ==> |ReadStr(s, room, x).st.rest| < |x.rest|
  {
    hide Store, StoreAddr, StoreStr;
  }

  /** No record reader ends fine without having read anything. */
  lemma RecordConsumes(t: u32, x: St)
    requires Known(t) && ReadRecord(t, x).sig.Fine?
    ensures |ReadRecord(t, x).st.rest| < |x.rest|
  {
    hide ReadParts, FlatParts, SampledPacket, ReadPath, ReadCommunities, ReadStack, Charset, HostOf, ShowOwnAses,
         ShowCommunities, Line, Show, ShowAddr, ShowStr, Mark, Read, ReadAddr, ReadStr;
    ReadsConsume();
    if t == 1 {
      PacketConsumes(x);
    } else if !(1001 <= t <= 1007) {
      FlatPartsStart(t);
      PartsConsume(FlatParts(t), x);
    }
  }

  /** A record that is read to its end and passes its length check ends where
      its length field says. */
  lemma ElementEnds(x: St)
    requires |x.rest| < WRAPS && ReadElement(x).sig.Fine?
    ensures |x.rest| >= 2 && Quads(x.rest[1]) <= |x.rest| - 2
    ensures ReadElement(x).st.rest == x.rest[2 + Quads(x.rest[1])..]
  {
    hide ReadRecord, Known, Line, Count, Quads;
    var tag, len := x.rest[0], x.rest[1];
    var y := Get(1, Line(BlockTag(tag), Get(1, x).next)).next;
    HeadLeft(x, tag);
    var o := ReadElementBody(tag, len, y);
    BodyLeaves(tag, len, y);
    BodyFits(tag, len, y);
    SliceOfSlice(x.rest, 2, |y.rest| - |o.st.rest|);
    assert ReadElement(x).st.rest == o.st.rest by {
      CountKeepsRest(o.st);
    }
  }

  lemma CountKeepsRest(x: St)
    ensures Count(x).rest == x.rest
  {
  }

  lemma HeadLeft(x: St, tag: u32)
    requires |x.rest| >= 2
    ensures var g := Get(1, Line(BlockTag(tag), Get(1, x).next));
            g.Got? && g.words == [x.rest[1]] && g.next.rest == x.rest[2..]
  {
  }

  lemma SliceOfSlice(ws: seq<u32>, i: nat, j: nat)
    requires i + j <= |ws|
    ensures ws[i..][j..] == ws[i + j..]
  {
  }

  /** The length check leaves one number of words to move. */
  lemma BodyFits(tag: u32, len: u32, y: St)
    requires |y.rest| < WRAPS
    requires var o := ReadElementBody(tag, len, y); o.sig.Fine? && LengthCheck(|y.rest|, len, o.st).sig.Fine?
    ensures |y.rest| - |ReadElementBody(tag, len, y).st.rest| == Quads(len)
  {
    hide ReadRecord, Known;
    if Known(tag) {
      RecordConsumes(tag, y);
    }
  }

  lemma {:induction false} ElementsEnd(n: nat, x: St)
    requires |x.rest| < WRAPS && ReadElements(n, x).sig.Fine?
    ensures WalkRecords(n, x.rest) == End(ReadElements(n, x).st.rest)
    ensures SumRecords(n, x.rest) == |x.rest| - |ReadElements(n, x).st.rest|
  {
    hide ReadElement, Quads;
    if n == 0 {
    } else {
      ElementEnds(x);
      ElementsEnd(n - 1, ReadElement(x).st);
    }
  }

  function HeadWords(expanded: bool): nat {
    if expanded then 11 else 8
  }

  lemma HeadEnds(expanded: bool, x: St)
    requires ReadFlowHead(expanded, x).sig.Fine?
    ensures |x.rest| >= HeadWords(expanded) - 1
    ensures ReadFlowHead(expanded, x).st.rest == x.rest[HeadWords(expanded) - 1..]
  {
    hide ReadFlowHead, Place;
    var o := ReadFlowHead(expanded, x);
    HeadSize(expanded, x);
    SameIsSame(x, o);
    ReadFlowHeadPlaced(Same(x, o), expanded, x);
  }

  /** The fixed part is read exactly when its words are there. */
  lemma HeadSize(expanded: bool, x: St)
    ensures ReadFlowHead(expanded, x).sig.Fine? <==> |x.rest| >= HeadWords(expanded) - 1
    ensures ReadFlowHead(expanded, x).sig.Fine? ==>
              |x.rest| - |ReadFlowHead(expanded, x).st.rest| == HeadWords(expanded) - 1
  {
    hide ReadFlowTop, ReadRates, ReadPortsOf, ShowRates, ShowPort;
    TopSize(expanded, x);
    var o := ReadFlowTop(expanded, x);
    if o.sig.Fine? {
      RatesSize(o.st);
      var p := ReadRates(o.st);
      if p.sig.Fine? {
        PortsSize(expanded, ShowRates(p.st));
      }
    }
  }

  lemma TopSize(expanded: bool, x: St)
    ensures var n, o := if expanded then 3 else 2, ReadFlowTop(expanded, x);
            (o.sig.Fine? <==> |x.rest| >= n) && (o.sig.Fine? ==> |x.rest| - |o.st.rest| == n)
  {
    hide Store, Show, ShowSource;
  }

  lemma RatesSize(x: St)
    ensures var o := ReadRates(x);
            (o.sig.Fine? <==> |x.rest| >= 3) && (o.sig.Fine? ==> |x.rest| - |o.st.rest| == 3)
  {
    hide Store;
  }

  lemma PortsSize(expanded: bool, x: St)
    ensures var n, o := if expanded then 4 else 2, ReadPortsOf(expanded, x);
            (o.sig.Fine? <==> |x.rest| >= n) && (o.sig.Fine? ==> |x.rest| - |o.st.rest| == n)
  {
    hide Store;
  }

  /** A flow sample that is decoded to its end is framed exactly by its lengths:
      its records end where a walk over their length fields ends, and its own
      length covers the fixed part (32 or 44 bytes) and the records, each of
      them 8 bytes and a padded body. */
  lemma FlowSampleConserves(expanded: bool, x: St)
    requires |x.rest| < WRAPS && ReadFlowSample(expanded, x).sig.Fine?
    ensures |x.rest| > HeadWords(expanded)
    ensures var o := ReadFlowSample(expanded, x);
            var n, records := x.rest[HeadWords(expanded)], x.rest[HeadWords(expanded) + 1..];
            && WalkRecords(n, records) == End(o.st.rest)
            && Quads(x.rest[0]) == HeadWords(expanded) + SumRecords(n, records)
            && |x.rest| - |o.st.rest| == 1 + Quads(x.rest[0])
  {
    hide ReadFlowHead, ReadElements, Line, Quads;
    var y := Get(1, Line(Title(FlowSampleLine), x)).next;
    LineKeepsRest(Title(FlowSampleLine), x);
    HeadEnds(expanded, y);
    var z := ReadFlowHead(expanded, y).st;
    SliceOfSlice(x.rest, 1, HeadWords(expanded) - 1);
    var w := Get(1, z).next;
    SliceOfSlice(x.rest, HeadWords(expanded), 1);
    ElementsEnd(z.rest[0], w);
    CheckExact(|y.rest|, x.rest[0], ReadElements(z.rest[0], w).st);
  }

  lemma LineKeepsRest(e: Event, x: St)
    ensures Line(e, x).rest == x.rest
  {
  }

  lemma CheckExact(start: nat, len: u32, x: St)
    requires |x.rest| < start < WRAPS && LengthCheck(start, len, x).sig.Fine?
    ensures start - |x.rest| == Quads(len)
  {
  }
}
