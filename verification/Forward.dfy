/** A record of a kind this program does not know, put anywhere into a flow
    sample, changes nothing but the two lines that are printed for it, unless
    what lies in front of it is read beyond its end. */
module Forward {
  import opened Xdr
  import opened SampleState
  import opened Reader
  import opened Records
  import opened FlowDecode
  import opened Context
  import opened Conservation
  import opened Framing
  import opened Gateways
  import DatagramTrip
  import Encoding
  import RoundTrip

  /** An unknown record: its words, and the lines printed for it. */
  datatype Unknown = Unknown(tag: u32, len: u32, body: seq<u32>)

  predicate UnknownOk(u: Unknown) {
    !Known(u.tag) && u.len <= 0xFFFF_FFFC && |u.body| == Quads(u.len)
  }

  function UnknownWords(u: Unknown): seq<u32> {
    [u.tag, u.len] + u.body
  }

  function UnknownLines(u: Unknown): seq<Event> {
    [BlockTag(u.tag), Skipped(false, u.tag, u.len)]
  }

  /** The rest of a run in the trace of which the lines of u follow after `log`. */
  function Added(log: seq<Event>, u: Unknown): Ctx {
    Ctx(false, 0, [], log, log + UnknownLines(u), 1)
  }

  /** The state x with the words w put in front of the last n words. */
  function Insert(w: seq<u32>, n: nat, x: St): St
    requires n <= |x.rest|
  {
    x.(rest := x.rest[..|x.rest| - n] + w + x.rest[|x.rest| - n..])
  }

  lemma ReadUnknown(u: Unknown, x: St)
    requires UnknownOk(u) && |x.rest| < WRAPS
    ensures ReadElement(Insert(UnknownWords(u), |x.rest|, x)) == Out(Fine, Place(Added(x.log, u), x))
  {
    hide ReadRecord, Known;
    var y := Insert(UnknownWords(u), |x.rest|, x);
    assert y.rest == [u.tag] + ([u.len] + (u.body + x.rest));
    assert y.rest[1..] == [u.len] + (u.body + x.rest);
    assert y.rest[1..][1..] == u.body + x.rest;
    assert (u.body + x.rest)[|u.body|..] == x.rest;
    assert x.log + [BlockTag(u.tag)] + [Skipped(false, u.tag, u.len)] == x.log + UnknownLines(u) + x.log[|x.log|..];
  }

  // Running n iterations is running k and then the others.

  lemma {:induction false} ElementsSplit(n: nat, k: nat, x: St)
    requires k <= n && ReadElements(k, x).sig.Fine?
    ensures ReadElements(n, x) == ReadElements(n - k, ReadElements(k, x).st)
  {
    hide ReadElement;
    if k == 0 {
    } else {
      ElementsSplit(n - 1, k - 1, ReadElement(x).st);
    }
  }

  lemma {:induction false} SamplesSplit(n: nat, k: nat, x: St)
    requires k <= n && ReadSamples(k, x).sig.Fine?
    ensures ReadSamples(n, x) == ReadSamples(n - k, ReadSamples(k, x).st)
  {
    hide ReadSample;
    if k == 0 {
    } else {
      SamplesSplit(n - 1, k - 1, ReadSample(x).st);
    }
  }

  /** Replacing what a run left unread. */
  function Tail(keep: nat, tail: seq<u32>): Ctx {
    Ctx(true, keep, tail, [], [], 0)
  }

  lemma TailPlaced(x: St, keep: nat, w: seq<u32>)
    requires keep <= |x.rest|
    ensures Place(Tail(keep, w + x.rest[|x.rest| - keep..]), x) == Insert(w, keep, x)
  {
    assert x.rest[..|x.rest| - keep] + (w + x.rest[|x.rest| - keep..])
        == x.rest[..|x.rest| - keep] + w + x.rest[|x.rest| - keep..];
    assert [] + x.log[0..] == x.log;
  }

  /** A run that ends fine takes with it what is put behind the words it reads. */
  lemma ElementsBeforeInsert(k: nat, x: St, w: seq<u32>)
    requires ReadElements(k, x).sig.Fine? && |x.rest| < WRAPS
    ensures var p := ReadElements(k, x).st;
            ReadElements(k, Insert(w, |p.rest|, x)) == Out(Fine, Insert(w, |p.rest|, p))
  {
    hide ReadElements, Place, Insert;
    var o := ReadElements(k, x);
    ElementsLeave(k, x);
    var c := Tail(|o.st.rest|, w + o.st.rest);
    TailPlaced(x, |o.st.rest|, w);
    TailPlaced(o.st, |o.st.rest|, w);
    assert o.st.rest[0..] == o.st.rest;
    ReadElementsPlaced(c, k, x);
  }

  lemma ElementsLeave(k: nat, x: St)
    requires ReadElements(k, x).sig.Fine?
    ensures var o := ReadElements(k, x); o.st.rest == x.rest[|x.rest| - |o.st.rest|..]
  {
    hide ReadElements, Place;
    var o := ReadElements(k, x);
    SameIsSame(x, o);
    ReadElementsPlaced(Same(x, o), k, x);
  }

  /** Insertion behind the first k of n records, if those are read fine. */
  lemma InsertedBehind(n: nat, k: nat, x: St, u: Unknown)
    requires k <= n && ReadElements(k, x).sig.Fine? && UnknownOk(u) && |x.rest| < WRAPS
    ensures var p := ReadElements(k, x).st;
            ReadElements(n + 1, Insert(UnknownWords(u), |p.rest|, x)) == Placed(Added(p.log, u), ReadElements(n, x))
  {
    hide ReadElement, Place, Insert, UnknownOk, UnknownWords, UnknownLines;
    var p := ReadElements(k, x).st;
    var w := UnknownWords(u);
    ElementsBeforeInsert(k, x, w);
    ElementsSplit(n, k, x);
    ElementsSplit(n + 1, k, Insert(w, |p.rest|, x));
    ReadUnknown(u, p);
    ReadElementsPlaced(Added(p.log, u), n - k, p);
  }

  // Iterations that do not end fine are the last ones.

  lemma {:induction false} ElementsStop(n: nat, k: nat, x: St)
    requires k <= n && !ReadElements(k, x).sig.Fine?
    ensures ReadElements(n, x) == ReadElements(k, x)
  {
    hide ReadElement;
    if k == 0 {
    } else if ReadElement(x).sig.Fine? {
      ElementsStop(n - 1, k - 1, ReadElement(x).st);
    }
  }

  lemma {:induction false} SamplesStop(n: nat, k: nat, x: St)
    requires k <= n && !ReadSamples(k, x).sig.Fine?
    ensures ReadSamples(n, x) == ReadSamples(k, x)
  {
    hide ReadSample;
    if k == 0 {
    } else if ReadSample(x).sig.Fine? {
      SamplesStop(n - 1, k - 1, ReadSample(x).st);
    }
  }

  // A run on the words in front alone, and the same run with more words behind.

  /** The state x with its words cut off before the last n. */
  function Front(n: nat, x: St): St
    requires n <= |x.rest|
  {
    x.(rest := x.rest[..|x.rest| - n])
  }

  function More(t: seq<u32>, x: St): St {
    x.(rest := x.rest + t)
  }

  function MoreOut(t: seq<u32>, o: Out): Out {
    Out(o.sig, More(t, o.st))
  }

  lemma MorePlaced(t: seq<u32>, x: St)
    ensures Place(Tail(0, t), x) == More(t, x)
  {
    assert [] + x.log[0..] == x.log;
  }

  /** A run that does not run out of words does not see what is put behind. */
  lemma ElementsMore(k: nat, x: St, t: seq<u32>)
    requires ReadElements(k, x).sig != Abort(EOS)
    ensures ReadElements(k, More(t, x)) == MoreOut(t, ReadElements(k, x))
  {
    hide ReadElements, Place, More;
    MorePlaced(t, x);
    MorePlaced(t, ReadElements(k, x).st);
    ReadElementsPlaced(Tail(0, t), k, x);
  }

  lemma SamplesMore(k: nat, x: St, t: seq<u32>)
    requires ReadSamples(k, x).sig != Abort(EOS)
    ensures ReadSamples(k, More(t, x)) == MoreOut(t, ReadSamples(k, x))
  {
    hide ReadSamples, Place, More;
    MorePlaced(t, x);
    MorePlaced(t, ReadSamples(k, x).st);
    ReadSamplesPlaced(Tail(0, t), k, x);
  }

  /** And a run that ends fine needs no word that it leaves. */
  lemma ElementsAlone(k: nat, x: St)
    requires ReadElements(k, x).sig.Fine?
    ensures var n := |ReadElements(k, x).st.rest|; ReadElements(k, Front(n, x)).sig.Fine?
  {
    hide ReadElements, Place;
    var o := ReadElements(k, x);
    var c := Tail(|o.st.rest|, []);
    PlaceTail(c, x, Front(|o.st.rest|, x).rest);
    ReadElementsPlaced(c, k, x);
  }

  lemma SamplesAlone(k: nat, x: St)
    requires ReadSamples(k, x).sig.Fine?
    ensures var n := |ReadSamples(k, x).st.rest|; ReadSamples(k, Front(n, x)).sig.Fine?
  {
    hide ReadSamples, Place;
    var o := ReadSamples(k, x);
    var c := Tail(|o.st.rest|, []);
    PlaceTail(c, x, Front(|o.st.rest|, x).rest);
    ReadSamplesPlaced(c, k, x);
  }

  lemma PlaceTail(c: Ctx, x: St, ws: seq<u32>)
    requires c.cut && c.before == [] && c.after == [] && c.extra == 0 && c.keep <= |x.rest|
    requires ws == x.rest[..|x.rest| - c.keep] + c.tail
    ensures Place(c, x) == x.(rest := ws)
  {
    assert [] + x.log[0..] == x.log;
  }

  // The walk over the length fields.

  /** A walk ends in a tail of the words, and what lies behind does not matter. */
  lemma {:induction false} WalkBehind(k: nat, ws: seq<u32>, t: seq<u32>)
    requires WalkRecords(k, ws).End?
    ensures var e := WalkRecords(k, ws).rest;
            && |e| <= |ws| && e == ws[|ws| - |e|..]
            && WalkRecords(k, ws[..|ws| - |e|] + t) == End(t)
  {
    hide Quads, WalkRecords;
    if k == 0 {
      NoneWalked(ws);
      NoneWalked(ws[..0] + t);
      assert ws[..0] + t == t;
    } else {
      WalkStep(k, ws);
      var n, m := 2 + Quads(ws[1]), |WalkRecords(k, ws).rest|;
      WalkBehind(k - 1, ws[n..], t);
      FrontStep(ws, n, m, t);
      WalkStep(k, ws[..|ws| - m] + t);
    }
  }

  lemma NoneWalked(ws: seq<u32>)
    ensures WalkRecords(0, ws) == End(ws)
  {
  }

  lemma WalkStep(k: nat, ws: seq<u32>)
    requires k > 0
    ensures WalkRecords(k, ws).End? ==> |ws| >= 2 && Quads(ws[1]) <= |ws| - 2
    ensures |ws| >= 2 && Quads(ws[1]) <= |ws| - 2 ==> WalkRecords(k, ws) == WalkRecords(k - 1, ws[2 + Quads(ws[1])..])
  {
    hide Quads;
  }

  lemma FrontStep(ws: seq<u32>, n: nat, m: nat, t: seq<u32>)
    requires 2 <= n && n + m <= |ws|
    ensures var front := ws[..|ws| - m] + t;
            |front| >= n && front[1] == ws[1] && front[n..] == ws[n..][..|ws[n..]| - m] + t
    ensures ws[n..][|ws[n..]| - m..] == ws[|ws| - m..]
  {
  }

  /** Words are what lies in front of their end and the end. */
  lemma FrontAndEnd(x: St, k: nat)
    requires WalkRecords(k, x.rest).End?
    ensures var e := WalkRecords(k, x.rest).rest;
            && |e| <= |x.rest| && More(e, Front(|e|, x)) == x
            && forall w {:trigger Insert(w, |e|, x)} :: Insert(w, |e|, x) == More(w + e, Front(|e|, x))
  {
    WalkBehind(k, x.rest, []);
    var e := WalkRecords(k, x.rest).rest;
    var a := x.rest[..|x.rest| - |e|];
    assert x.rest == a + e;
    forall w
      ensures Insert(w, |e|, x) == More(w + e, Front(|e|, x))
    {
      assert a + w + e == a + (w + e);
    }
  }

  /** Records that are read fine end where the walk ends; so if they run out of
      words on their own, they are not read fine whatever follows. */
  lemma ElementsOverrun(k: nat, x: St, t: seq<u32>)
    requires WalkRecords(k, x.rest).End? && |x.rest| + |t| < WRAPS
    requires ReadElements(k, Front(|WalkRecords(k, x.rest).rest|, x)).sig == Abort(EOS)
    ensures !ReadElements(k, More(t, Front(|WalkRecords(k, x.rest).rest|, x))).sig.Fine?
  {
    hide ReadElements, WalkRecords, SumRecords, EndsAgree, Version, Front, More, Quads;
    WalkBehind(k, x.rest, t);
    var n := |WalkRecords(k, x.rest).rest|;
    var y := More(t, Front(n, x));
    OtherWords(n, x, t);
    if ReadElements(k, y).sig.Fine? {
      ElementsEnd(k, y);
      ElementsAlone(k, y);
    }
  }

  lemma SamplesOverrun(k: nat, x: St, t: seq<u32>)
    requires WalkRecords(k, x.rest).End? && |x.rest| + |t| < WRAPS && Version(x) >= 5 && EndsAgree(x)
    requires ReadSamples(k, Front(|WalkRecords(k, x.rest).rest|, x)).sig == Abort(EOS)
    ensures !ReadSamples(k, More(t, Front(|WalkRecords(k, x.rest).rest|, x))).sig.Fine?
  {
    hide ReadSamples, WalkRecords, EndsAgree, Version, Front, More, Quads;
    WalkBehind(k, x.rest, t);
    var n := |WalkRecords(k, x.rest).rest|;
    var y := More(t, Front(n, x));
    OtherWords(n, x, t);
    if ReadSamples(k, y).sig.Fine? {
      SamplesFramed(k, y);
      SamplesAlone(k, y);
    }
  }

  lemma OtherWords(n: nat, x: St, t: seq<u32>)
    requires n <= |x.rest|
    ensures var y := More(t, Front(n, x));
            && y.rest == x.rest[..|x.rest| - n] + t && Front(|t|, y) == Front(n, x)
            && Version(y) == Version(x) && EndsAgree(y) == EndsAgree(x)
  {
  }

  /** None of the next k records that are reached reads past the end that its length
      field gives: each of them, on its own words, does not run out of them. */
  predicate KeepWithin(k: nat, x: St) {
    k == 0 ||
    (|x.rest| >= 2 && Quads(x.rest[1]) <= |x.rest| - 2 &&
     var n := 2 + Quads(x.rest[1]);
     var r := ReadElement(Front(|x.rest| - n, x));
     r.sig != Abort(EOS) && (r.sig.Fine? ==> KeepWithin(k - 1, More(x.rest[n..], r.st))))
  }

  lemma ElementMore(x: St, t: seq<u32>)
    requires ReadElement(x).sig != Abort(EOS)
    ensures ReadElement(More(t, x)) == MoreOut(t, ReadElement(x))
  {
    hide ReadElement, Place, More;
    MorePlaced(t, x);
    MorePlaced(t, ReadElement(x).st);
    ReadElementPlaced(Tail(0, t), x);
  }

  /** Then all of them together do not run out of their words either. */
  lemma {:induction false} FrontKeepsWithin(k: nat, x: St)
    requires KeepWithin(k, x) && WalkRecords(k, x.rest).End? && |x.rest| < WRAPS
    ensures ReadElements(k, Front(|WalkRecords(k, x.rest).rest|, x)).sig != Abort(EOS)
  {
    hide ReadElement, Quads, WalkRecords, Front, More;
    if k == 0 {
    } else {
      WalkStep(k, x.rest);
      var n, m := 2 + Quads(x.rest[1]), |WalkRecords(k, x.rest).rest|;
      var own, t := Front(|x.rest| - n, x), x.rest[n..];
      WalkBehind(k - 1, t, []);
      var mid, r := t[..|t| - m], ReadElement(own);
      FrontInTwo(x, n, m);
      ElementMore(own, mid);
      if r.sig.Fine? {
        OwnSize(own, x, n);
        FrontOfMore(t, m, r.st);
        FrontKeepsWithin(k - 1, More(t, r.st));
      }
    }
  }

  /** Records that are read fine keep within their own words, whatever follows them. */
  lemma {:induction false} FineKeepsWithin(k: nat, x: St)
    requires ReadElements(k, x).sig.Fine? && |x.rest| < WRAPS
    ensures KeepWithin(k, x)
    decreases k
  {
    hide ReadElement, Quads, Front, More;
    if k == 0 {
    } else {
      var o := ReadElement(x);
      Conservation.ElementEnds(x);
      var n := 2 + Quads(x.rest[1]);
      ElementAlone(x, n);
      FineKeepsWithin(k - 1, o.st);
    }
  }

  lemma ElementAlone(x: St, n: nat)
    requires ReadElement(x).sig.Fine? && n <= |x.rest| && ReadElement(x).st.rest == x.rest[n..]
    ensures var r := ReadElement(Front(|x.rest| - n, x));
            r.sig.Fine? && More(x.rest[n..], r.st) == ReadElement(x).st
  {
    hide ReadElement;
    var c := Ctx(true, |x.rest| - n, [], [], [], 0);
    var o := ReadElement(x);
    Dropped(|x.rest| - n, x);
    Dropped(|x.rest| - n, o.st);
    ReadElementPlaced(c, x);
    assert [] + x.rest[n..] == x.rest[n..];
  }

  lemma Dropped(n: nat, x: St)
    requires n <= |x.rest|
    ensures Place(Ctx(true, n, [], [], [], 0), x) == Front(n, x)
  {
    assert x.rest[..|x.rest| - n] + [] == x.rest[..|x.rest| - n] && [] + x.log[0..] == x.log;
  }

  /** The words of an encoded record, in front of others. */
  lemma EncodedWords(r: Encoding.Record, t: seq<u32>, x: St)
    requires Encoding.RecordOk(r) && Encoding.Length(r) < 0x1_0000_0000
    ensures var y := RoundTrip.WithRest(Encoding.PutRecord(r, t), x);
            && |y.rest| >= 2 && y.rest[1] == Encoding.Length(r)
            && var n := 2 + Quads(Encoding.Length(r));
            && n == |y.rest| - |t| && y.rest[n..] == t
            && Front(|y.rest| - n, y) == RoundTrip.WithRest(Encoding.PutRecord(r, []), x)
  {
    hide Encoding.PutBody, Encoding.Length, Encoding.Tag, Encoding.RecordOk, Quads;
    DatagramTrip.BodySize(r, t);
    DatagramTrip.BodyMore(r, t);
    var own := Encoding.PutRecord(r, []);
    assert Encoding.PutRecord(r, t) == own + t;
    assert (own + t)[..|own|] == own && (own + t)[|own|..] == t;
  }

  /** An encoded record alone is read fine, or ends the program. */
  lemma EncodedAlone(r: Encoding.Record, t: seq<u32>, x: St)
    requires Encoding.RecordOk(r) && Encoding.Length(r) < 0x1_0000_0000 && Version(x) == 5
    ensures var o := ReadElement(RoundTrip.WithRest(Encoding.PutRecord(r, []), x));
            var y := DatagramTrip.ElementAfter(r, x);
            && o.sig != Abort(EOS) && Version(y) == 5
            && (o.sig.Fine? ==> More(t, o.st) == RoundTrip.WithRest(t, y))
  {
    hide ReadElement, Version, Encoding.RecordOk, Encoding.RecordDefined, Encoding.PutRecord, Encoding.Length,
         DatagramTrip.ElementAfter;
    var y := DatagramTrip.ElementAfter(r, x);
    DatagramTrip.ElementVersion(r, x);
    if Encoding.RecordDefined(r) {
      DatagramTrip.ElementAt(r, [], x);
      assert [] + t == t;
    } else {
      DatagramTrip.ElementExits(r, [], x);
    }
  }

  /** Whatever records an agent encodes, they keep within: with them in front of the
      place, the condition can be told from the words. */
  lemma {:induction false} EncodedKeepWithin(rs: seq<Encoding.Record>, t: seq<u32>, x: St)
    requires Encoding.RecordsOk(rs) && Version(x) == 5
    ensures KeepWithin(|rs|, RoundTrip.WithRest(Encoding.PutRecords(rs, t), x))
  {
    hide ReadElement, Version, Encoding.RecordOk, Encoding.PutRecord, Encoding.Length, Quads, Front, More,
         RoundTrip.WithRest, DatagramTrip.ElementAfter;
    if rs == [] {
    } else {
      var tail := Encoding.PutRecords(rs[1..], t);
      EncodedWords(rs[0], tail, x);
      EncodedAlone(rs[0], tail, x);
      EncodedKeepWithin(rs[1..], t, DatagramTrip.ElementAfter(rs[0], x));
    }
  }

  lemma FrontOfMore(t: seq<u32>, m: nat, x: St)
    requires x.rest == [] && m <= |t|
    ensures More(t, x).rest == t && Front(m, More(t, x)) == More(t[..|t| - m], x)
  {
    assert [] + t == t && [] + t[..|t| - m] == t[..|t| - m];
  }

  lemma FrontInTwo(x: St, n: nat, m: nat)
    requires n + m <= |x.rest|
    ensures Front(m, x) == More(x.rest[n..][..|x.rest[n..]| - m], Front(|x.rest| - n, x))
  {
    assert x.rest[..|x.rest| - m] == x.rest[..n] + x.rest[n..][..|x.rest| - n - m];
  }

  /** A record that is read fine on its own words takes all of them. */
  lemma OwnSize(own: St, x: St, n: nat)
    requires |x.rest| >= 2 && n == 2 + Quads(x.rest[1]) && n <= |x.rest| < WRAPS && own == Front(|x.rest| - n, x)
    requires ReadElement(own).sig.Fine?
    ensures ReadElement(own).st.rest == []
  {
    hide ReadElement, Quads;
    Conservation.ElementEnds(own);
  }

  /** Insertion behind the first k of n records, wherever those end by their length
      fields, provided that they do not run out of words on their own. */
  lemma InsertedInElements(n: nat, k: nat, x: St, u: Unknown)
    requires k <= n && WalkRecords(k, x.rest).End? && UnknownOk(u) && |x.rest| < WRAPS
    requires ReadElements(k, Front(|WalkRecords(k, x.rest).rest|, x)).sig != Abort(EOS)
    ensures var e := WalkRecords(k, x.rest).rest;
            && var f := ReadElements(k, Front(|e|, x));
            && var y := Insert(UnknownWords(u), |e|, x);
            if f.sig.Fine?
            then f.st.rest == [] && ReadElements(n + 1, y) == Placed(Added(f.st.log, u), ReadElements(n, x))
            else ReadElements(n, x) == MoreOut(e, f) && ReadElements(n + 1, y) == MoreOut(UnknownWords(u) + e, f)
  {
    hide ReadElements, Place, Insert, Front, More, UnknownOk, UnknownWords, UnknownLines, WalkRecords, SumRecords;
    var e := WalkRecords(k, x.rest).rest;
    var f := ReadElements(k, Front(|e|, x));
    FrontAndEnd(x, k);
    ElementsMore(k, Front(|e|, x), e);
    ElementsMore(k, Front(|e|, x), UnknownWords(u) + e);
    if f.sig.Fine? {
      ElementsEnd(k, x);
      NothingInFront(e, f.st);
      InsertedBehind(n, k, x, u);
    } else {
      ElementsStop(n, k, x);
      ElementsStop(n + 1, k, Insert(UnknownWords(u), |e|, x));
    }
  }

  lemma NothingInFront(t: seq<u32>, x: St)
    requires More(t, x).rest == t
    ensures x.rest == [] && More(t, x).log == x.log
  {
    assert |x.rest + t| == |x.rest| + |t|;
  }

  // In a flow sample: the count and the length are adjusted.

  /** The adjusted length and count still fit their words. */
  predicate Room(ws: seq<u32>, head: nat, u: Unknown)
    requires 1 <= head < |ws|
  {
    (ws[0] as int) + 4 * |UnknownWords(u)| < 0x1_0000_0000 && (ws[head] as int) + 1 < 0x1_0000_0000
  }

  /** The words of a sample, from its length on, with u put in front of the last n. */
  function Grown(ws: seq<u32>, head: nat, n: nat, u: Unknown): seq<u32>
    requires 1 <= head < |ws| && n < |ws| - head && Room(ws, head, u)
  {
    [(ws[0] as int) + 4 * |UnknownWords(u)|] + ws[1..head] + [(ws[head] as int) + 1]
    + ws[head + 1..|ws| - n] + UnknownWords(u) + ws[|ws| - n..]
  }

  /** The state of a flow sample in front of its records. */
  function Records0(expanded: bool, x: St): Out {
    var (_, x) :- Get(1, Line(Title(FlowSampleLine), x));
    var y :- ReadFlowHead(expanded, x);
    var (_, z) :- Get(1, y);
    Out(Fine, z)
  }

  /** The state of a flow sample behind its first k records. */
  function RecordsK(expanded: bool, k: nat, x: St): Out {
    var x :- Records0(expanded, x);
    ReadElements(k, x)
  }

  lemma Records0Fine(expanded: bool, x: St)
    ensures Records0(expanded, x).sig.Fine? <==> |x.rest| > HeadWords(expanded)
  {
    hide ReadFlowHead, Line;
    LineKeepsRest(Title(FlowSampleLine), x);
    if |x.rest| > 0 {
      HeadSize(expanded, Get(1, Line(Title(FlowSampleLine), x)).next);
    }
  }

  lemma Records0Left(expanded: bool, x: St)
    requires Records0(expanded, x).sig.Fine?
    ensures |x.rest| > HeadWords(expanded)
    ensures Records0(expanded, x).st.rest == x.rest[HeadWords(expanded) + 1..]
    ensures ReadFlowSample(expanded, x)
         == (var o := ReadElements(x.rest[HeadWords(expanded)], Records0(expanded, x).st);
             if o.sig.Fine? then LengthCheck(|x.rest| - 1, x.rest[0], o.st) else o)
  {
    hide ReadFlowHead, ReadElements, Line, LengthCheck;
    LineKeepsRest(Title(FlowSampleLine), x);
    var y := Get(1, Line(Title(FlowSampleLine), x)).next;
    HeadEnds(expanded, y);
    SliceOfSlice(x.rest, 1, HeadWords(expanded) - 1);
    SliceOfSlice(x.rest, HeadWords(expanded), 1);
  }

  /** The head only reads its own words. */
  lemma HeadAlone(expanded: bool, x: St, ws: seq<u32>)
    requires ReadFlowHead(expanded, x).sig.Fine?
    requires |ws| >= HeadWords(expanded) - 1
    requires |x.rest| >= HeadWords(expanded) - 1 && ws[..HeadWords(expanded) - 1] == x.rest[..HeadWords(expanded) - 1]
    ensures ReadFlowHead(expanded, x.(rest := ws))
         == Out(Fine, ReadFlowHead(expanded, x).st.(rest := ws[HeadWords(expanded) - 1..]))
  {
    hide ReadFlowHead, Place;
    var o := ReadFlowHead(expanded, x);
    var h := HeadWords(expanded) - 1;
    HeadEnds(expanded, x);
    var c := Tail(|o.st.rest|, ws[h..]);
    PlaceTail(c, x, ws[..h] + ws[h..]);
    PlaceTail(c, o.st, ws[h..]);
    assert ws[..h] + ws[h..] == ws;
    ReadFlowHeadPlaced(c, expanded, x);
  }

  lemma Records0Grown(expanded: bool, x: St, ws: seq<u32>)
    requires Records0(expanded, x).sig.Fine?
    requires |x.rest| > HeadWords(expanded) && |ws| > HeadWords(expanded)
    requires ws[1..HeadWords(expanded)] == x.rest[1..HeadWords(expanded)]
    ensures Records0(expanded, x.(rest := ws))
         == Out(Fine, Records0(expanded, x).st.(rest := ws[HeadWords(expanded) + 1..]))
  {
    hide ReadFlowHead, Line;
    var h := HeadWords(expanded);
    LineKeepsRest(Title(FlowSampleLine), x);
    LineRest(Title(FlowSampleLine), x, ws);
    var y := Get(1, Line(Title(FlowSampleLine), x)).next;
    assert ws[1..][..h - 1] == ws[1..h] && x.rest[1..][..h - 1] == x.rest[1..h];
    HeadAlone(expanded, y, ws[1..]);
    SliceOfSlice(ws, 1, h - 1);
    SliceOfSlice(ws, h, 1);
  }

  lemma LineRest(e: Event, x: St, ws: seq<u32>)
    ensures Line(e, x.(rest := ws)) == Line(e, x).(rest := ws)
  {
  }

  lemma GrownParts(ws: seq<u32>, head: nat, n: nat, u: Unknown)
    requires 1 <= head < |ws| && n < |ws| - head && Room(ws, head, u)
    ensures var g := Grown(ws, head, n, u);
            && |g| == |ws| + |UnknownWords(u)|
            && g[0] as int == ws[0] as int + 4 * |UnknownWords(u)|
            && g[1..head] == ws[1..head]
            && g[head] as int == ws[head] as int + 1
            && g[head + 1..] == ws[head + 1..][..|ws| - head - 1 - n] + UnknownWords(u) + ws[|ws| - n..]
  {
    hide UnknownWords;
    assert ws[head + 1..][..|ws| - head - 1 - n] == ws[head + 1..|ws| - n];
  }

  lemma CheckGrown(start: nat, len: u32, x: St, y: St, d: nat)
    requires len as int + 4 * d < 0x1_0000_0000 && |x.rest| <= start < 0x1_0000 && d < 0x1_0000
    requires |y.rest| == |x.rest|
    ensures LengthCheck(start + d, len as int + 4 * d, y).sig == LengthCheck(start, len, x).sig
  {
    assert Quads(len as int + 4 * d) == Quads(len) + d;
    if Quads(len) + d < WRAPS {
      assert Quads(len) % WRAPS == Quads(len) && (Quads(len) + d) % WRAPS == Quads(len) + d;
    }
  }

  /** Growing a sample is, for its records, inserting. */
  lemma GrownIsInsert(ws: seq<u32>, head: nat, n: nat, u: Unknown, z: St)
    requires 1 <= head < |ws| && n < |ws| - head && Room(ws, head, u)
    requires z.rest == ws[head + 1..]
    ensures z.(rest := Grown(ws, head, n, u)[head + 1..]) == Insert(UnknownWords(u), n, z)
  {
    hide UnknownWords, Grown;
    GrownParts(ws, head, n, u);
    SliceOfSlice(ws, head + 1, |z.rest| - n);
  }

  /** Both length checks end the same way. */
  lemma ChecksAgree(start: nat, len: u32, len': u32, o: Out, c: Ctx, d: nat)
    requires !c.cut && Fits(c, o.st)
    requires len as int + 4 * d == len' as int && |o.st.rest| <= start < 0x1_0000 && d < 0x1_0000
    ensures (if Placed(c, o).sig.Fine? then LengthCheck(start + d, len', Placed(c, o).st) else Placed(c, o))
         == Placed(c, if o.sig.Fine? then LengthCheck(start, len, o.st) else o)
  {
    hide LengthCheck, Place;
    PlacedLeft(c, o.st);
    CheckGrown(start, len, o.st, Place(c, o.st), d);
  }

  lemma PlacedLeft(c: Ctx, x: St)
    requires !c.cut
    ensures Place(c, x).rest == x.rest
  {
  }

  /** Room behind the first k records of a flow sample, where they end by their
      length fields. */
  predicate SampleSpot(expanded: bool, k: nat, ws: seq<u32>, u: Unknown) {
    var h := HeadWords(expanded);
    && |ws| > h && k <= ws[h] && WalkRecords(k, ws[h + 1..]).End?
    && |ws| + |UnknownWords(u)| < 0x1_0000 && Room(ws, h, u)
  }

  /** The words behind those k records. */
  function LeftBy(expanded: bool, k: nat, ws: seq<u32>): (e: seq<u32>)
    requires |ws| > HeadWords(expanded) && WalkRecords(k, ws[HeadWords(expanded) + 1..]).End?
    ensures |e| < |ws| - HeadWords(expanded)
  {
    WalkRecords(k, ws[HeadWords(expanded) + 1..]).rest
  }

  /** The head and the k records, on their own words. */
  function SampleFront(expanded: bool, k: nat, x: St): Out
    requires |x.rest| > HeadWords(expanded) && WalkRecords(k, x.rest[HeadWords(expanded) + 1..]).End?
  {
    RecordsK(expanded, k, Front(|LeftBy(expanded, k, x.rest)|, x))
  }

  /** The three states in front of the records: of the sample, of its front alone,
      and of the grown sample. */
  lemma ThreeHeads(expanded: bool, k: nat, x: St, u: Unknown)
    requires SampleSpot(expanded, k, x.rest, u)
    ensures var h, n, z := HeadWords(expanded), |LeftBy(expanded, k, x.rest)|, Records0(expanded, x).st;
            && Records0(expanded, x).sig.Fine? && z.rest == x.rest[h + 1..]
            && Records0(expanded, Front(n, x)) == Out(Fine, Front(n, z))
            && Records0(expanded, x.(rest := Grown(x.rest, h, n, u))) == Out(Fine, Insert(UnknownWords(u), n, z))
  {
    hide Records0, Grown, UnknownWords, Room, WalkRecords, LeftBy, Insert, ReadFlowSample, ReadElements, LengthCheck;
    var h, n := HeadWords(expanded), |LeftBy(expanded, k, x.rest)|;
    Records0Fine(expanded, x);
    Records0Left(expanded, x);
    var ws, g := Front(n, x).rest, Grown(x.rest, h, n, u);
    FrontRecords(x.rest, h, n);
    Records0Grown(expanded, x, ws);
    GrownParts(x.rest, h, n, u);
    Records0Grown(expanded, x, g);
    GrownIsInsert(x.rest, h, n, u, Records0(expanded, x).st);
  }

  lemma FrontRecords(ws: seq<u32>, h: nat, n: nat)
    requires 1 <= h && h + n < |ws|
    ensures var front := ws[..|ws| - n];
            front[1..h] == ws[1..h] && front[h + 1..] == ws[h + 1..][..|ws| - h - 1 - n]
  {
  }

  /** Insertion behind the first k records of a flow sample. */
  lemma InsertedInSample(expanded: bool, k: nat, x: St, u: Unknown)
    requires UnknownOk(u) && SampleSpot(expanded, k, x.rest, u)
    requires SampleFront(expanded, k, x).sig != Abort(EOS)
    ensures var e, f := LeftBy(expanded, k, x.rest), SampleFront(expanded, k, x);
            && var o, y := ReadFlowSample(expanded, x), x.(rest := Grown(x.rest, HeadWords(expanded), |e|, u));
            if f.sig.Fine?
            then |f.st.log| <= |o.st.log| && ReadFlowSample(expanded, y) == Placed(Added(f.st.log, u), o)
            else o == MoreOut(e, f) && ReadFlowSample(expanded, y) == MoreOut(UnknownWords(u) + e, f)
  {
    hide Records0, ReadElements, LengthCheck, Place, Grown, UnknownWords, UnknownLines, UnknownOk, Insert, Room,
         ReadFlowSample, WalkRecords, Front, More;
    var h, n, z := HeadWords(expanded), |LeftBy(expanded, k, x.rest)|, Records0(expanded, x).st;
    var y := x.(rest := Grown(x.rest, h, n, u));
    ThreeHeads(expanded, k, x, u);
    GrownParts(x.rest, h, n, u);
    Records0Left(expanded, x);
    Records0Left(expanded, y);
    InsertedInElements(x.rest[h], k, z, u);
    var f := ReadElements(k, Front(n, z));
    if f.sig.Fine? {
      var o := ReadElements(x.rest[h], z);
      ElementsMore(k, Front(n, z), LeftBy(expanded, k, x.rest));
      FrontAndEnd(z, k);
      NothingMore(LeftBy(expanded, k, x.rest), f.st);
      ElementsSplit(x.rest[h], k, z);
      ChecksAgree(|x.rest| - 1, x.rest[0], y.rest[0], o, Added(f.st.log, u), |UnknownWords(u)|);
    }
  }

  lemma NothingMore(t: seq<u32>, x: St)
    ensures More(t, x).log == x.log && |More(t, x).rest| == |x.rest| + |t|
  {
  }

  /** If the records in front run out of words on their own, the sample is not read
      fine, with or without the insertion. */
  lemma OverrunInSample(expanded: bool, k: nat, x: St, u: Unknown)
    requires SampleSpot(expanded, k, x.rest, u)
    requires SampleFront(expanded, k, x).sig == Abort(EOS)
    ensures !ReadFlowSample(expanded, x).sig.Fine?
    ensures var n := |LeftBy(expanded, k, x.rest)|;
            !ReadFlowSample(expanded, x.(rest := Grown(x.rest, HeadWords(expanded), n, u))).sig.Fine?
  {
    hide Records0, ReadElements, LengthCheck, Grown, UnknownWords, Insert, Room, ReadFlowSample, WalkRecords, Front,
         More;
    var h, e, z := HeadWords(expanded), LeftBy(expanded, k, x.rest), Records0(expanded, x).st;
    var y := x.(rest := Grown(x.rest, h, |e|, u));
    ThreeHeads(expanded, k, x, u);
    GrownParts(x.rest, h, |e|, u);
    Records0Left(expanded, x);
    Records0Left(expanded, y);
    FrontAndEnd(z, k);
    ElementsOverrun(k, z, e);
    ElementsOverrun(k, z, UnknownWords(u) + e);
    ElementsStop(x.rest[h], k, z);
    ElementsStop(y.rest[h], k, Records0(expanded, y).st);
  }

  // In a datagram.

  /** The words s start with a flow sample that has room behind its first k records. */
  predicate FlowSpot(k: nat, s: seq<u32>, u: Unknown) {
    |s| > 0 && IsFlow(s[0]) && SampleSpot(s[0] == 3, k, s[1..], u)
  }

  /** The words of s with u put there. */
  function GrownAhead(k: nat, s: seq<u32>, u: Unknown): seq<u32>
    requires FlowSpot(k, s, u)
  {
    var expanded := s[0] == 3;
    [s[0]] + Grown(s[1..], HeadWords(expanded), |LeftBy(expanded, k, s[1..])|, u)
  }

  function BehindAhead(k: nat, s: seq<u32>, u: Unknown): seq<u32>
    requires FlowSpot(k, s, u)
  {
    LeftBy(s[0] == 3, k, s[1..])
  }

  /** The sample up to that place, on its own words. */
  function FrontAhead(k: nat, x: St, u: Unknown): Out
    requires FlowSpot(k, x.rest, u)
  {
    SampleFront(x.rest[0] == 3, k, Typed(x))
  }

  lemma TypedGrown(x: St, y: St)
    requires |x.rest| > 0 && |y.rest| > 0 && y == x.(rest := y.rest) && y.rest[0] == x.rest[0]
    ensures Typed(y) == Typed(x).(rest := y.rest[1..])
  {
  }

  lemma GrownWords(k: nat, s: seq<u32>, u: Unknown)
    requires FlowSpot(k, s, u)
    ensures var g, e := GrownAhead(k, s, u), LeftBy(s[0] == 3, k, s[1..]);
            && |g| == |s| + |UnknownWords(u)| && g[0] == s[0]
            && g[1..] == Grown(s[1..], HeadWords(s[0] == 3), |e|, u)
  {
    hide Grown, UnknownWords, Room, WalkRecords;
    GrownParts(s[1..], HeadWords(s[0] == 3), |LeftBy(s[0] == 3, k, s[1..])|, u);
  }

  lemma EndPlaced(c: Ctx, x: St)
    requires Fits(c, x)
    ensures Count(Line(EndSample, Place(c, x))) == Place(c, Count(Line(EndSample, x)))
  {
    hide Place, Count, Line;
    PrintsPlaced(c);
    StoresPlaced(c);
  }

  /** Insertion into the sample ahead. */
  lemma InsertedAhead(k: nat, x: St, u: Unknown)
    requires Version(x) >= 5 && FlowSpot(k, x.rest, u) && UnknownOk(u) && FrontAhead(k, x, u).sig != Abort(EOS)
    ensures var f, e, y := FrontAhead(k, x, u), BehindAhead(k, x.rest, u), x.(rest := GrownAhead(k, x.rest, u));
            if f.sig.Fine?
            then |f.st.log| <= |ReadSample(x).st.log| && ReadSample(y) == Placed(Added(f.st.log, u), ReadSample(x))
            else ReadSample(x) == MoreOut(e, f) && ReadSample(y) == MoreOut(UnknownWords(u) + e, f)
  {
    hide ReadFlowSample, ReadSample, SampleFront, SampleSpot, GrownAhead, Line, Count, Place, Grown, UnknownWords,
         UnknownLines, UnknownOk, WalkRecords, LeftBy, More;
    var expanded := x.rest[0] == 3;
    var y := x.(rest := GrownAhead(k, x.rest, u));
    TypeRead(x);
    GrownWords(k, x.rest, u);
    InsertedInSample(expanded, k, Typed(x), u);
    FlowSampleTyped(x);
    FlowSampleTyped(y);
    TypedGrown(x, y);
    var f, o := FrontAhead(k, x, u), ReadFlowSample(expanded, Typed(x));
    if f.sig.Fine? && o.sig.Fine? {
      EndPlaced(Added(f.st.log, u), o.st);
    }
  }

  lemma OverrunAhead(k: nat, x: St, u: Unknown)
    requires Version(x) >= 5 && FlowSpot(k, x.rest, u) && FrontAhead(k, x, u).sig == Abort(EOS)
    ensures !ReadSample(x).sig.Fine? && !ReadSample(x.(rest := GrownAhead(k, x.rest, u))).sig.Fine?
  {
    hide ReadFlowSample, ReadSample, SampleFront, SampleSpot, GrownAhead, Line, Count, Grown, UnknownWords,
         WalkRecords, LeftBy;
    var y := x.(rest := GrownAhead(k, x.rest, u));
    TypeRead(x);
    GrownWords(k, x.rest, u);
    OverrunInSample(x.rest[0] == 3, k, Typed(x), u);
    FlowSampleTyped(x);
    FlowSampleTyped(y);
    TypedGrown(x, y);
  }

  /** Insertion into the first of the samples that are left. */
  lemma InsertedInSamples(m: nat, k: nat, x: St, u: Unknown)
    requires m > 0 && Version(x) >= 5 && FlowSpot(k, x.rest, u) && UnknownOk(u)
    requires FrontAhead(k, x, u).sig != Abort(EOS)
    ensures var f, e, y := FrontAhead(k, x, u), BehindAhead(k, x.rest, u), x.(rest := GrownAhead(k, x.rest, u));
            if f.sig.Fine?
            then && |f.st.log| <= |ReadSamples(m, x).st.log|
                 && ReadSamples(m, y) == Placed(Added(f.st.log, u), ReadSamples(m, x))
            else ReadSamples(m, x) == MoreOut(e, f) && ReadSamples(m, y) == MoreOut(UnknownWords(u) + e, f)
  {
    hide ReadSample, FlowSpot, UnknownOk, FrontAhead, BehindAhead, GrownAhead, UnknownWords, UnknownLines, Place,
         Version;
    InsertedAhead(k, x, u);
    var f, o := FrontAhead(k, x, u), ReadSample(x);
    if f.sig.Fine? && o.sig.Fine? {
      ReadSamplesPlaced(Added(f.st.log, u), m - 1, o.st);
    }
  }

  /** A place in a version 5 datagram where u fits: behind the first k records of its
      j-th sample, which is a flow sample, as the counts and the length fields say. */
  predicate Spot(words: seq<u32>, j: nat, k: nat, u: Unknown) {
    && HeadFits(words) && |words| < 0x1_0000 && j < words[HeadLen(words) - 1]
    && var s := WalkRecords(j, words[HeadLen(words)..]);
    s.End? && FlowSpot(k, s.rest, u)
  }

  /** The words from the j-th sample on. */
  function SamplesFrom(words: seq<u32>, j: nat): (s: seq<u32>)
    requires HeadFits(words) && WalkRecords(j, words[HeadLen(words)..]).End?
    ensures |s| <= |words| - HeadLen(words)
  {
    WalkRecords(j, words[HeadLen(words)..]).rest
  }

  /** The datagram with u put there, the sample's count and length adjusted. */
  function WithUnknown(words: seq<u32>, j: nat, k: nat, u: Unknown): seq<u32>
    requires Spot(words, j, k, u)
  {
    var s := SamplesFrom(words, j);
    words[..|words| - |s|] + GrownAhead(k, s, u)
  }

  /** The decode of what lies in front of the place: the samples in front, on their
      own words, and then the records in front, on their own words. */
  function FrontRun(words: seq<u32>, j: nat, k: nat, u: Unknown): Out
    requires Spot(words, j, k, u)
  {
    HeadFine(words);
    var s := SamplesFrom(words, j);
    var x :- ReadSamples(j, Front(|s|, Samples0(Start(words)).st));
    FrontAhead(k, x.(rest := s), u)
  }

  /** Both datagrams have the same head, and their samples follow. */
  lemma TwoHeads(words: seq<u32>, j: nat, k: nat, u: Unknown)
    requires Spot(words, j, k, u)
    ensures var s, w := SamplesFrom(words, j), WithUnknown(words, j, k, u);
            var x := Samples0(Start(words)).st;
            && Samples0(Start(words)).sig.Fine? && x.rest == words[HeadLen(words)..] && Version(x) == 5 && EndsAgree(x)
            && SampleCount(Start(words)) == words[HeadLen(words) - 1]
            && x == More(s, Front(|s|, x))
            && Samples0(Start(w)) == Out(Fine, More(GrownAhead(k, s, u), Front(|s|, x)))
            && SampleCount(Start(w)) == SampleCount(Start(words))
  {
    hide Samples0, SampleCount, Place, FlowSpot, GrownAhead, WalkRecords, EndsAgree, Version;
    HeadFine(words);
    var s, w, x := SamplesFrom(words, j), WithUnknown(words, j, k, u), Samples0(Start(words)).st;
    FrontAndEnd(x, j);
    var g := GrownAhead(k, s, u);
    HeadAndSamples(words, |s|, g);
    var c := Tail(|x.rest|, Front(|s|, x).rest + g);
    PlaceTail(c, Start(words), w);
    PlaceTail(c, x, Front(|s|, x).rest + g);
    Samples0Placed(c, Start(words));
  }

  lemma HeadAndSamples(words: seq<u32>, n: nat, g: seq<u32>)
    requires HeadFits(words) && n <= |words| - HeadLen(words)
    ensures var t := words[HeadLen(words)..];
            && words[..|words| - n] + g == words[..|words| - |t|] + (t[..|t| - n] + g)
            && [] + (t[..|t| - n] + g) == t[..|t| - n] + g
  {
  }

  /** Forward compatibility: an unknown record anywhere in any flow sample, with the
      sample's count and length adjusted. If what lies in front of it does not run
      out of words on its own, the decode ends as before, with the same fields. If
      all of that is read fine, the two lines of the record are added to the trace,
      and nothing else changes; if not, the record is never reached. */
  lemma ForwardCompatible(words: seq<u32>, j: nat, k: nat, u: Unknown)
    requires UnknownOk(u) && Spot(words, j, k, u) && FrontRun(words, j, k, u).sig != Abort(EOS)
    ensures var o, p, f := Decode(words), Decode(WithUnknown(words, j, k, u)), FrontRun(words, j, k, u);
            && p.sig == o.sig && p.st.f == o.st.f && p.st.path == o.st.path
            && if f.sig.Fine?
               then && |f.st.log| <= |o.st.log| && p.st.log == f.st.log + UnknownLines(u) + o.st.log[|f.st.log|..]
                    && p.st.rest == o.st.rest && p.st.work == o.st.work + 1
               else p.sig == f.sig && p.st.log == o.st.log == f.st.log && p.st.work == o.st.work
  {
    hide Samples0, SampleCount, ReadSamples, Place, FlowSpot, FrontAhead, BehindAhead, GrownAhead, UnknownOk,
         UnknownLines, UnknownWords, ReadDatagram, WalkRecords, Front, EndsAgree, Version, HeadFits;
    var s, w := SamplesFrom(words, j), WithUnknown(words, j, k, u);
    var x, n, g := Samples0(Start(words)).st, SampleCount(Start(words)), GrownAhead(k, s, u);
    TwoHeads(words, j, k, u);
    DatagramSplit(Start(words));
    DatagramSplit(Start(w));
    var f := ReadSamples(j, Front(|s|, x));
    SamplesMore(j, Front(|s|, x), s);
    SamplesMore(j, Front(|s|, x), g);
    if !f.sig.Fine? {
      SamplesStop(n, j, x);
      SamplesStop(n, j, Samples0(Start(w)).st);
    } else {
      AtSample(j, x, f.st, s);
      var y := f.st.(rest := s);
      NothingBefore(s, f.st);
      NothingBefore(g, f.st);
      SamplesSplit(n, j, x);
      SamplesSplit(n, j, Samples0(Start(w)).st);
      InsertedInSamples(n - j, k, y, u);
      if FrontAhead(k, y, u).sig.Fine? {
        PlacedParts(FrontAhead(k, y, u).st.log, u, ReadSamples(n - j, y).st);
      }
    }
  }

  /** In front of the j-th sample the version is what it was. */
  lemma AtSample(j: nat, x: St, p: St, s: seq<u32>)
    requires Version(x) >= 5 && EndsAgree(x) && |x.rest| < WRAPS && WalkRecords(j, x.rest) == End(s)
    requires ReadSamples(j, x) == Out(Fine, More(s, p))
    ensures p.rest == [] && Version(p.(rest := s)) >= 5
  {
    SamplesEnds(j, x);
    SamplesFramed(j, x);
    NothingInFront(s, p);
    VersionOfRest(p, s);
    hide ReadSamples, EndsAgree, WalkRecords;
  }

  lemma VersionOfRest(x: St, s: seq<u32>)
    ensures Version(x.(rest := s)) == Version(x) && Version(More(s, x)) == Version(x)
  {
  }

  lemma NothingBefore(t: seq<u32>, x: St)
    requires x.rest == []
    ensures More(t, x) == x.(rest := t)
  {
    assert [] + t == t;
  }

  lemma PlacedParts(log: seq<Event>, u: Unknown, x: St)
    requires |log| <= |x.log|
    ensures var y := Place(Added(log, u), x);
            && y.rest == x.rest && y.f == x.f && y.path == x.path && y.work == x.work + 1
            && y.log == log + UnknownLines(u) + x.log[|log|..]
  {
  }

  /** The other case: what lies in front runs out of words on its own. Then it reads
      on into whatever follows, and neither datagram is decoded fine. */
  lemma OverrunFails(words: seq<u32>, j: nat, k: nat, u: Unknown)
    requires Spot(words, j, k, u) && FrontRun(words, j, k, u).sig == Abort(EOS)
    ensures !Decode(words).sig.Fine? && !Decode(WithUnknown(words, j, k, u)).sig.Fine?
  {
    hide Samples0, SampleCount, ReadSamples, FlowSpot, FrontAhead, GrownAhead, UnknownWords, ReadDatagram,
         WalkRecords, Front, EndsAgree, Version, HeadFits;
    var s, w := SamplesFrom(words, j), WithUnknown(words, j, k, u);
    var x, n, g := Samples0(Start(words)).st, SampleCount(Start(words)), GrownAhead(k, s, u);
    TwoHeads(words, j, k, u);
    GrownSize(words, j, k, u);
    DatagramSplit(Start(words));
    DatagramSplit(Start(w));
    var f := ReadSamples(j, Front(|s|, x));
    if f.sig == Abort(EOS) {
      SamplesOverrun(j, x, s);
      SamplesOverrun(j, x, g);
      SamplesStop(n, j, x);
      SamplesStop(n, j, Samples0(Start(w)).st);
    } else {
      OverrunAtSample(n, j, k, x, s, g, f, u);
    }
  }

  lemma OverrunAtSample(n: nat, j: nat, k: nat, x: St, s: seq<u32>, g: seq<u32>, f: Out, u: Unknown)
    requires j < n && Version(x) >= 5 && EndsAgree(x) && |x.rest| < WRAPS && WalkRecords(j, x.rest) == End(s)
    requires x == More(s, Front(|s|, x)) && f == ReadSamples(j, Front(|s|, x)) && f.sig.Fine?
    requires FlowSpot(k, s, u) && g == GrownAhead(k, s, u) && FrontAhead(k, f.st.(rest := s), u).sig == Abort(EOS)
    ensures !ReadSamples(n, x).sig.Fine? && !ReadSamples(n, More(g, Front(|s|, x))).sig.Fine?
  {
    hide ReadSamples, FlowSpot, FrontAhead, GrownAhead, WalkRecords, Front, EndsAgree, Version, More;
    SamplesMore(j, Front(|s|, x), s);
    SamplesMore(j, Front(|s|, x), g);
    AtSample(j, x, f.st, s);
    NothingBefore(s, f.st);
    NothingBefore(g, f.st);
    SamplesSplit(n, j, x);
    SamplesSplit(n, j, More(g, Front(|s|, x)));
    OverrunAhead(k, f.st.(rest := s), u);
    FirstFails(n - j, f.st.(rest := s));
    FirstFails(n - j, f.st.(rest := g));
  }

  lemma GrownSize(words: seq<u32>, j: nat, k: nat, u: Unknown)
    requires Spot(words, j, k, u)
    ensures |GrownAhead(k, SamplesFrom(words, j), u)| < 0x2_0000
  {
    hide GrownAhead, UnknownWords, WalkRecords, Room;
    GrownWords(k, SamplesFrom(words, j), u);
  }

  lemma FirstFails(n: nat, x: St)
    requires n > 0 && !ReadSample(x).sig.Fine?
    ensures !ReadSamples(n, x).sig.Fine?
  {
    hide ReadSample;
  }

  /** So a datagram is decoded fine exactly when it is with u anywhere in it; and then
      everything in front of u is read fine, and only its two lines are added. */
  lemma OutcomeKept(words: seq<u32>, j: nat, k: nat, u: Unknown)
    requires UnknownOk(u) && Spot(words, j, k, u)
    ensures var o, p, f := Decode(words), Decode(WithUnknown(words, j, k, u)), FrontRun(words, j, k, u);
            && (p.sig.Fine? <==> o.sig.Fine?)
            && (o.sig.Fine? ==>
                  && f.sig.Fine? && p.st.f == o.st.f && p.st.path == o.st.path && p.st.rest == o.st.rest
                  && |f.st.log| <= |o.st.log| && p.st.log == f.st.log + UnknownLines(u) + o.st.log[|f.st.log|..])
  {
    hide FrontRun, UnknownOk, UnknownLines, WithUnknown, Spot, Decode;
    if FrontRun(words, j, k, u).sig == Abort(EOS) {
      OverrunFails(words, j, k, u);
    } else {
      ForwardCompatible(words, j, k, u);
    }
  }

  // What an overrun can change: a switch record that declares one word and reads four.

  const HEAD: seq<u32> := [5, 1, 0, 0, 0, 0, 1]
  const ZEROS: seq<u32> := [0, 0, 0, 0, 0, 0, 0]

  /** A flow sample with these length, count and records, all else zero. */
  function Body(len: u32, n: u32, records: seq<u32>): seq<u32> {
    [len] + ZEROS + [n] + records
  }

  /** A datagram of one such sample, in compact form. */
  function OneSample(len: u32, n: u32, records: seq<u32>): seq<u32> {
    HEAD + ([1] + Body(len, n, records))
  }

  lemma OneSampleParts(len: u32, n: u32, records: seq<u32>)
    ensures var words := OneSample(len, n, records);
            && |words| >= 7 && HeadFits(words) && HeadLen(words) == 7 && words[6] == 1 && words[..7] == HEAD
            && words[7..] == [1] + Body(len, n, records) && words[7..][1..] == Body(len, n, records)
  {
    hide Body;
  }

  lemma BodyParts(len: u32, n: u32, records: seq<u32>)
    ensures var ws := Body(len, n, records);
            && |ws| == 9 + |records| && ws[0] == len && ws[1..8] == ZEROS && ws[8] == n && ws[9..] == records
  {
  }

  lemma SwitchOverrun(x: St, a: u32, b: u32, c: u32, d: u32, t: seq<u32>)
    requires x.rest == [1001, 4, a, b, c, d] + t
    ensures ReadElement(x).sig == Abort(LENGTH_ERROR) && Num(ReadElement(x).st.f, InPriority) == b
  {
    hide SampledPacket, Router, Gateway, User, UrlOf, Mpls, Nat, ReadParts, FlatParts, SkipRecord, Switch;
    var y := Line(BlockTag(1001), x.(rest := x.rest[1..]));
    assert x.rest[1..] == [4, a, b, c, d] + t && y.rest[1..] == [a, b, c, d] + t;
    SwitchRead(y.(rest := y.rest[1..]), a, b, c, d, t);
  }

  lemma SwitchRead(x: St, a: u32, b: u32, c: u32, d: u32, t: seq<u32>)
    requires x.rest == [a, b, c, d] + t
    ensures Switch(x).sig.Fine? && |Switch(x).st.rest| == |t| && Num(Switch(x).st.f, InPriority) == b
  {
  }

  lemma OverrunDecoded(len: u32, n: u32, a: u32, b: u32, c: u32, d: u32, t: seq<u32>)
    requires n > 0
    ensures var o := Decode(OneSample(len, n, [1001, 4, a, b, c, d] + t));
            o.sig == Abort(LENGTH_ERROR) && Num(o.st.f, InPriority) == b
  {
    hide Samples0, SampleCount, ReadDatagram, ReadFlowSample, Records0, ReadElement, ReadSample, OneSample, Body,
         HeadFits, EndsAgree, Line, Count, LengthCheck;
    var records := [1001, 4, a, b, c, d] + t;
    var words := OneSample(len, n, records);
    OneSampleParts(len, n, records);
    BodyParts(len, n, records);
    HeadFine(words);
    DatagramSplit(Start(words));
    var x := Samples0(Start(words)).st;
    TypeRead(x);
    FlowSampleTyped(x);
    Records0Fine(false, Typed(x));
    Records0Left(false, Typed(x));
    SwitchOverrun(Records0(false, Typed(x)).st, a, b, c, d, t);
  }

  /** A switch record that declares one word, an unknown record, and one more of
      no length between them. */
  const SHORT_SWITCH: seq<u32> := [1001, 4, 7]
  const BEHIND_IT: seq<u32> := [5000, 4, 9]
  const BETWEEN: Unknown := Unknown(6000, 0, [])

  lemma Witnesses()
    ensures UnknownOk(BETWEEN) && UnknownWords(BETWEEN) == [6000, 0]
    ensures SHORT_SWITCH + BEHIND_IT == [1001, 4, 7, 5000, 4, 9] + []
    ensures SHORT_SWITCH + UnknownWords(BETWEEN) + BEHIND_IT == [1001, 4, 7, 6000, 0, 5000] + [4, 9]
    ensures WalkRecords(1, SHORT_SWITCH + BEHIND_IT) == End(BEHIND_IT)
  {
    var ws := SHORT_SWITCH + BEHIND_IT;
    assert Quads(ws[1]) == 1 && ws[3..] == BEHIND_IT;
  }

  /** Both datagrams fail in the switch record with a length error, and what it has
      stored by then shows the record that was put behind it. */
  lemma OverrunIsSeen()
    ensures var words := OneSample(56, 2, SHORT_SWITCH + BEHIND_IT);
            && UnknownOk(BETWEEN) && Spot(words, 0, 1, BETWEEN) && FrontRun(words, 0, 1, BETWEEN).sig == Abort(EOS)
            && var o, p := Decode(words), Decode(WithUnknown(words, 0, 1, BETWEEN));
            && o.sig == p.sig == Abort(LENGTH_ERROR)
            && Num(o.st.f, InPriority) == 5000 && Num(p.st.f, InPriority) == 6000
  {
    hide Decode, OneSample, WithUnknown, Spot, FrontRun, UnknownOk, UnknownWords, WalkRecords;
    var words := OneSample(56, 2, SHORT_SWITCH + BEHIND_IT);
    Witnesses();
    OneSampleGrown(56, 2, SHORT_SWITCH, BEHIND_IT, BETWEEN);
    OverrunDecoded(56, 2, 7, 5000, 4, 9, []);
    OverrunDecoded(64, 3, 7, 6000, 0, 5000, [4, 9]);
    if FrontRun(words, 0, 1, BETWEEN).sig != Abort(EOS) {
      ForwardCompatible(words, 0, 1, BETWEEN);
    }
  }

  /** Putting u behind the first record of the only sample. */
  lemma OneSampleGrown(len: u32, n: u32, a: seq<u32>, e: seq<u32>, u: Unknown)
    requires WalkRecords(1, a + e) == End(e) && n > 0 && |a| + |e| + |UnknownWords(u)| < 0x8000
    requires len as int + 4 * |UnknownWords(u)| < 0x1_0000_0000 && n as int + 1 < 0x1_0000_0000
    ensures var words := OneSample(len, n, a + e);
            && Spot(words, 0, 1, u)
            && WithUnknown(words, 0, 1, u)
            == OneSample(len as int + 4 * |UnknownWords(u)|, n as int + 1, a + UnknownWords(u) + e)
  {
    hide WalkRecords, UnknownWords, OneSample, Body, FlowSpot, GrownAhead, HeadFits, HeadLen, Spot, WithUnknown;
    var words := OneSample(len, n, a + e);
    OneSampleParts(len, n, a + e);
    BodyParts(len, n, a + e);
    SampleGrown(len, n, a, e, u);
    FirstSampleGrown(words, words[7..], u);
    OneSampleJoined(len as int + 4 * |UnknownWords(u)|, n as int + 1, a + UnknownWords(u) + e);
  }

  lemma OneSampleJoined(len: u32, n: u32, records: seq<u32>)
    ensures HEAD + ([1] + Body(len, n, records)) == OneSample(len, n, records)
  {
  }

  lemma SampleGrown(len: u32, n: u32, a: seq<u32>, e: seq<u32>, u: Unknown)
    requires WalkRecords(1, a + e) == End(e) && n > 0 && |a| + |e| + |UnknownWords(u)| < 0x8000
    requires len as int + 4 * |UnknownWords(u)| < 0x1_0000_0000 && n as int + 1 < 0x1_0000_0000
    ensures var s := [1] + Body(len, n, a + e);
            && FlowSpot(1, s, u)
            && GrownAhead(1, s, u)
            == [1] + Body(len as int + 4 * |UnknownWords(u)|, n as int + 1, a + UnknownWords(u) + e)
  {
    hide WalkRecords, UnknownWords, Body, Grown, Room;
    var body := Body(len, n, a + e);
    assert ([1] + body)[1..] == body;
    BodyParts(len, n, a + e);
    BodyGrown(len, n, a, e, u);
  }

  lemma FirstSampleGrown(words: seq<u32>, s: seq<u32>, u: Unknown)
    requires |words| >= 7 && HeadFits(words) && HeadLen(words) == 7 && words[6] > 0 && words[7..] == s
    requires |words| < 0x1_0000
    requires FlowSpot(1, s, u)
    ensures Spot(words, 0, 1, u) && WithUnknown(words, 0, 1, u) == words[..7] + GrownAhead(1, s, u)
  {
    hide HeadFits, HeadLen, FlowSpot, GrownAhead, WalkRecords, UnknownWords;
    NoneWalked(s);
    assert |words| - |s| == 7;
  }

  lemma BodyGrown(len: u32, n: u32, a: seq<u32>, e: seq<u32>, u: Unknown)
    requires len as int + 4 * |UnknownWords(u)| < 0x1_0000_0000 && n as int + 1 < 0x1_0000_0000
    ensures var ws := Body(len, n, a + e);
            && |ws| == 9 + |a| + |e| && Room(ws, 8, u)
            && Grown(ws, 8, |e|, u) == Body(len as int + 4 * |UnknownWords(u)|, n as int + 1, a + UnknownWords(u) + e)
  {
    hide UnknownWords, Body;
    var ws := Body(len, n, a + e);
    BodyParts(len, n, a + e);
    assert ws[9..|ws| - |e|] == a && ws[|ws| - |e|..] == e by {
      LastWords(ws, a, e);
    }
    BodyJoined(len as int + 4 * |UnknownWords(u)|, n as int + 1, a, UnknownWords(u), e);
  }

  lemma LastWords(ws: seq<u32>, a: seq<u32>, e: seq<u32>)
    requires |ws| >= 9 && ws[9..] == a + e
    ensures ws[9..|ws| - |e|] == a && ws[|ws| - |e|..] == e
  {
    assert ws[9..][..|a|] == a && ws[9..][|a|..] == e;
    assert ws[9..|ws| - |e|] == ws[9..][..|a|] && ws[|ws| - |e|..] == ws[9..][|a|..];
  }

  lemma BodyJoined(len: u32, n: u32, a: seq<u32>, w: seq<u32>, e: seq<u32>)
    ensures [len] + ZEROS + [n] + a + w + e == Body(len, n, a + w + e)
  {
  }
}
