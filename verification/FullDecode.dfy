/** The decode of any datagram, over its bytes: flow samples by the readers of words,
    from whatever offset they start at, and counter samples by their own readers. */
module FullDecode {
  import opened Xdr
  import opened SampleState
  import opened PerEntry
  import opened CounterRecords
  import opened CounterSamples
  import opened HandOver
  import F = FlowDecode
  import R = Records

  /** The whole words from an offset on. */
  function WordsFrom(raw: seq<byte>, at: nat): (ws: seq<u32>)
    ensures at <= |raw| ==> |ws| == (|raw| - at) / 4
    ensures at >= |raw| ==> ws == []
  {
    if at <= |raw| then Words(raw[at..]) else []
  }

  lemma FirstWordAt(raw: seq<byte>, at: nat)
    requires at + 4 <= |raw|
    ensures WordsFrom(raw, at) != [] && WordsFrom(raw, at)[0] == Word32(raw, at)
    ensures at + 8 <= |raw| ==> |WordsFrom(raw, at)| >= 2 && WordsFrom(raw, at)[1] == Word32(raw, at + 4)
  {
    var bs := raw[at..];
    assert bs[0] == raw[at] && bs[1] == raw[at + 1] && bs[2] == raw[at + 2] && bs[3] == raw[at + 3];
    if at + 8 <= |raw| {
      var cs := bs[4..];
      assert cs[0] == raw[at + 4] && cs[1] == raw[at + 5] && cs[2] == raw[at + 6] && cs[3] == raw[at + 7];
      assert Words(bs)[1] == Words(cs)[0];
    }
  }

  /** A state of the decode as the readers of words see it. */
  function InWords(raw: seq<byte>, c: Cut): St {
    St(WordsFrom(raw, c.p.at), c.f, c.path, c.log, c.p.work)
  }

  /** The state behind a reader of words that went from x to y. */
  function InBytes(at: nat, x: St, y: St): Cut
    requires Advances(x, y)
  {
    Cut(Pos(at + 4 * (|x.rest| - |y.rest|), y.work), y.f, y.path, y.log)
  }

  lemma WordsPaid(raw: seq<byte>, c: Cut, y: St)
    requires Advances(InWords(raw, c), y)
    ensures Onward(raw, c.p, InBytes(c.p.at, InWords(raw, c), y).p)
  {
  }

  /** A counter sample comes next. */
  predicate CountersNext(x: St) {
    x.rest != [] && (x.rest[0] == 2 || (x.rest[0] == 4 && R.Version(x) >= 5))
  }

  function ReadCounterBody(raw: seq<byte>, c: Cut): (m: Move)
    ensures Keeps(raw, c, m.c) && m.sig != Outside(CounterSample)
  {
    if Num(c.f, DatagramVersion) < 5 then ReadCountersSampleV24(raw, c)
    else ReadCountersSample(Num(c.f, SampleType) == 4, raw, c)
  }

  /** The type of a sample, which is stored and printed. */
  function ReadType(raw: seq<byte>, c: Cut): (m: Move)
    ensures Keeps(raw, c, m.c) && m.sig != Outside(CounterSample)
    ensures m.sig.Fine? ==> m.c.p == Pos(c.p.at + 4, c.p.work) && c.p.at + 4 <= |raw|
  {
    var (t, c) :- Word(raw, c);
    Move(Fine, Print(SampleTag(t), Keep(SampleType, t, c)))
  }

  lemma TypeAt(raw: seq<byte>, c: Cut)
    ensures ReadType(raw, c)
         == if c.p.at + 4 > |raw| then Move(Abort(EOS), c)
            else Move(Fine, Cut(Pos(c.p.at + 4, c.p.work), SetNum(c.f, SampleType, Word32(raw, c.p.at)), c.path,
                                c.log + [SampleTag(Word32(raw, c.p.at))]))
  {
    hide Word32;
  }

  /** A word and whatever came behind it pay for one more iteration. */
  lemma OneMore(raw: seq<byte>, a: Pos, b: Pos, c: Pos)
    requires b == Pos(a.at + 4, a.work) && b.at <= |raw| && Onward(raw, b, c)
    ensures Onward(raw, a, Tick(c))
  {
  }

  function Close(c: Cut): (d: Cut)
    ensures d.p == Tick(c.p) && EndsOf(d) == EndsOf(c) && |c.log| <= |d.log|
  {
    Print(EndSample, c).(p := Tick(c.p))
  }

  /** A counter sample with its type and its lines. */
  function ReadCounterSample(raw: seq<byte>, c: Cut): (m: Move)
    ensures Keeps(raw, c, m.c) && m.sig != Outside(CounterSample)
  {
    hide Seen, EndsOf, ReadType, ReadCounterBody, Close;
    var d :- ReadType(raw, c);
    var e :- ReadCounterBody(raw, d);
    OneMore(raw, c.p, d.p, e.p);
    Move(Fine, Close(e))
  }

  /** One sample, of any type. */
  function ReadSample(raw: seq<byte>, c: Cut): (m: Move)
    ensures Onward(raw, c.p, m.c.p) && |c.log| <= |m.c.log| && m.sig != Outside(CounterSample)
  {
    var x := InWords(raw, c);
    if CountersNext(x) then ReadCounterSample(raw, c) else
      var o := F.ReadSample(x);
      WordsPaid(raw, c, o.st);
      HandsOver(x);
      Move(o.sig, InBytes(c.p.at, x, o.st))
  }

  lemma FlowIs(raw: seq<byte>, c: Cut)
    requires !CountersNext(InWords(raw, c))
    ensures var x := InWords(raw, c);
            var o := F.ReadSample(x);
            ReadSample(raw, c) == Move(o.sig, InBytes(c.p.at, x, o.st))
  {
    hide F.ReadSample, InWords, InBytes, CountersNext, ReadCounterSample;
  }

  lemma CounterIs(raw: seq<byte>, c: Cut)
    requires CountersNext(InWords(raw, c)) && ReadType(raw, c).sig.Fine?
    ensures var m := ReadCounterBody(raw, ReadType(raw, c).c);
            ReadSample(raw, c) == if m.sig.Fine? then Move(Fine, Close(m.c)) else m
  {
    hide InWords, InBytes, CountersNext, ReadType, ReadCounterBody, Close;
  }

  function ReadSamples(n: nat, raw: seq<byte>, c: Cut): (m: Move)
    ensures Onward(raw, c.p, m.c.p) && |c.log| <= |m.c.log| && m.sig != Outside(CounterSample)
  {
    if n == 0 then Move(Fine, c) else
      var c :- ReadSample(raw, c);
      ReadSamples(n - 1, raw, c)
  }

  /** The decode of a whole datagram into a cleared sample structure. It ends, and
      whatever the counts on the wire ask for, no more iterations are completed than
      a quarter of the bytes of the datagram. No sample stops it for its kind. */
  function Decode(raw: seq<byte>): (m: Move)
    ensures 4 * m.c.p.work <= |raw|
    ensures m.sig != Outside(CounterSample)
  {
    var x := F.Start(Words(raw));
    var o := F.Samples0(x);
    var c := InBytes(0, x, o.st);
    HeadStays(x);
    if o.sig.Fine? then ReadSamples(F.SampleCount(x), raw, c) else Move(o.sig, c)
  }
}
