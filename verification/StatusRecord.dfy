/** The application record (tag 2202): the one flow record in which an index from the
    wire can leave its table. */
module StatusRecord {
  import opened Xdr
  import opened SampleState
  import opened Reader
  import opened Records
  import opened FlowDecode
  import opened Conservation
  import opened Framing
  import opened Forward
  import opened Gateways

  /** Where n counted strings end. */
  function AfterStrings(n: nat, ws: seq<u32>): Walk {
    if n == 0 then End(ws)
    else if ws == [] || Quads(ws[0]) > |ws| - 1 then Lost
    else AfterStrings(n - 1, ws[1 + Quads(ws[0])..])
  }

  lemma StringTaken(room: BufLen, x: St)
    ensures var o := NextString(room, x);
            match AfterStrings(1, x.rest)
            case Lost => o.sig == Abort(EOS)
            case End(ws) => o.sig == Fine && o.st.rest == ws
  {
    hide Quads;
    if x.rest == [] || Quads(x.rest[0]) > |x.rest| - 1 {
      assert AfterStrings(1, x.rest) == Lost;
    } else {
      var ws := x.rest[1 + Quads(x.rest[0])..];
      assert AfterStrings(1, x.rest) == AfterStrings(0, ws) == End(ws);
      SliceOfSlice(x.rest, 1, Quads(x.rest[0]));
    }
  }

  predicate Texts(ps: seq<Part>) {
    forall i :: 0 <= i < |ps| ==> ps[i].S?
  }

  lemma Step(p: Part, more: seq<Part>, x: St)
    ensures var o := ReadPart(p, x);
            ReadParts([p] + more, x) == if o.sig.Fine? then ReadParts(more, o.st) else o
  {
    hide ReadPart;
    assert ([p] + more)[1..] == more;
  }

  lemma StringsInTurn(n: nat, ws: seq<u32>)
    requires n > 0
    ensures AfterStrings(n, ws)
         == match AfterStrings(1, ws)
            case Lost => Lost
            case End(t) => AfterStrings(n - 1, t)
  {
    hide Quads;
    if ws != [] && Quads(ws[0]) <= |ws| - 1 {
      assert AfterStrings(0, ws[1 + Quads(ws[0])..]) == End(ws[1 + Quads(ws[0])..]);
    }
  }

  lemma {:induction false} TextsTaken(ps: seq<Part>, more: seq<Part>, x: St)
    requires Texts(ps)
    ensures match AfterStrings(|ps|, x.rest)
            case Lost => ReadParts(ps + more, x).sig == Abort(EOS)
            case End(ws) => exists y: St :: y.rest == ws && ReadParts(ps + more, x).sig == ReadParts(more, y).sig
    decreases |ps|
  {
    hide NextString, Quads;
    if ps == [] {
      assert ps + more == more;
      assert x.rest == AfterStrings(0, x.rest).rest && ReadParts(ps + more, x).sig == ReadParts(more, x).sig;
    } else {
      StringTaken(ps[0].room, x);
      StringsInTurn(|ps|, x.rest);
      assert ps + more == [ps[0]] + (ps[1..] + more);
      Step(ps[0], ps[1..] + more, x);
      var o := NextString(ps[0].room, x);
      hide AfterStrings, ReadParts;
      if o.sig.Fine? {
        TextsTaken(ps[1..], more, o.st);
      }
    }
  }

  lemma CounterTaken(x: St)
    ensures var o := Next64(x);
            if |x.rest| >= 2 then o.sig == Fine && o.st.rest == x.rest[2..] else o.sig == Abort(EOS)
  {
  }

  lemma StatusTaken(x: St)
    ensures ReadParts([Status, W], x).sig
         == if |x.rest| > 0 && x.rest[0] >= 11 then Outside(BadIndex)
            else if |x.rest| < 2 then Abort(EOS) else Fine
  {
    Step(Status, [W], x);
    var y := NextStatus(x).st;
    Step(W, [], y);
    assert [Status] + [W] == [Status, W] && [W] + [] == [W];
  }

  /** What stands behind the strings: two counters, the status and a duration. */
  lemma TailTaken(x: St)
    ensures ReadParts([D, D, Status, W], x).sig
         == if |x.rest| > 4 && x.rest[4] >= 11 then Outside(BadIndex)
            else if |x.rest| < 6 then Abort(EOS) else Fine
  {
    hide Next64, ReadParts;
    Step(D, [D, Status, W], x);
    CounterTaken(x);
    assert [D] + [D, Status, W] == [D, D, Status, W] && [D] + [Status, W] == [D, Status, W];
    if |x.rest| >= 2 {
      var y := Next64(x).st;
      Step(D, [Status, W], y);
      CounterTaken(y);
      StatusTaken(Next64(y).st);
    }
  }

  lemma FlatOnly(x: St)
    ensures ReadRecord(2202, x) == ReadParts([S(32), S(32), S(255), S(32)] + [D, D, Status, W], x)
  {
    hide ReadParts;
    assert FlatParts(2202) == [S(32), S(32), S(255), S(32)] + [D, D, Status, W];
  }

  /** An application record leaves the table of names exactly when its status is one of
      the codes without a name; otherwise it is read if it is all there. */
  lemma StatusDecides(x: St)
    ensures ReadRecord(2202, x).sig
         == match AfterStrings(4, x.rest)
            case Lost => Abort(EOS)
            case End(ws) =>
              if |ws| > 4 && ws[4] >= 11 then Outside(BadIndex)
              else if |ws| < 6 then Abort(EOS) else Fine
  {
    hide AfterStrings, ReadParts, ReadRecord;
    var texts: seq<Part> := [S(32), S(32), S(255), S(32)];
    FlatOnly(x);
    TextsTaken(texts, [D, D, Status, W], x);
    match AfterStrings(4, x.rest)
    case Lost =>
    case End(ws) =>
      var y: St :| y.rest == ws && ReadParts(texts + [D, D, Status, W], x).sig == ReadParts([D, D, Status, W], y).sig;
      TailTaken(y);
  }

  // A datagram with such a record.

  /** An application record without texts whose status has no name. */
  const NAMELESS: seq<u32> := [2202, 40, 0, 0, 0, 0, 0, 0, 0, 0, 0xFFFF_FFFF, 0]

  lemma EmptyString(n: nat, ws: seq<u32>)
    requires n > 0 && ws != [] && ws[0] == 0
    ensures AfterStrings(n, ws) == AfterStrings(n - 1, ws[1..])
  {
    assert Quads(0) == 0;
  }

  lemma NamelessRecord(x: St)
    requires x.rest == NAMELESS[2..]
    ensures ReadRecord(2202, x).sig == Outside(BadIndex)
  {
    hide ReadRecord, AfterStrings;
    StatusDecides(x);
    var ws := x.rest;
    EmptyString(4, ws);
    EmptyString(3, ws[1..]);
    EmptyString(2, ws[1..][1..]);
    EmptyString(1, ws[1..][1..][1..]);
    NoStrings(ws[1..][1..][1..][1..]);
  }

  lemma NoStrings(ws: seq<u32>)
    ensures AfterStrings(0, ws) == End(ws)
  {
  }

  lemma NamelessElement(x: St)
    requires x.rest == NAMELESS
    ensures ReadElement(x).sig == Outside(BadIndex)
  {
    hide ReadRecord;
    var y := Line(BlockTag(2202), x.(rest := x.rest[1..]));
    NamelessRecord(y.(rest := y.rest[1..]));
  }

  /** A version 5 datagram whose only flow sample holds that record makes the program look
      far behind its table. */
  lemma StatusUnchecked()
    ensures Decode(OneSample(80, 1, NAMELESS)).sig == Outside(BadIndex)
  {
    hide Samples0, SampleCount, ReadDatagram, ReadFlowSample, Records0, ReadElement, ReadSample, OneSample, Body,
         HeadFits, EndsAgree, Line, Count, LengthCheck, NAMELESS;
    var words := OneSample(80, 1, NAMELESS);
    OneSampleParts(80, 1, NAMELESS);
    BodyParts(80, 1, NAMELESS);
    HeadFine(words);
    DatagramSplit(Start(words));
    var x := Samples0(Start(words)).st;
    TypeRead(x);
    FlowSampleTyped(x);
    Records0Fine(false, Typed(x));
    Records0Left(false, Typed(x));
    NamelessElement(Records0(false, Typed(x)).st);
  }
}
