/** Counter samples: version 5 records without a check of their own, the blocks of
    versions 2 and 4, and where a sample that passes its length check ends. */
module CounterSamples {
  import opened Xdr
  import opened SampleState
  import opened PerEntry
  import opened CounterRecords
  import Reader

  /** A state of the decode over bytes. */
  datatype Cut = Cut(p: Pos, f: Fields, path: AsPath, log: seq<Event>)

  datatype Move = Move(sig: Signal, c: Cut)
  {
    predicate IsFailure() { !sig.Fine? }

    function PropagateFailure(): Move
      requires IsFailure()
    {
      this
    }

    function Extract(): Cut
      requires !IsFailure()
    {
      c
    }
  }

  datatype Got = Whole(w: u32, c: Cut) | Cropped(c: Cut)
  {
    predicate IsFailure() { Cropped? }

    function PropagateFailure(): Move
      requires IsFailure()
    {
      Move(Abort(EOS), c)
    }

    function Extract(): (u32, Cut)
      requires !IsFailure()
    {
      (w, c)
    }
  }

  /** The path, its endpoints and the version. */
  ghost function EndsOf(c: Cut): (AsPath, u32, u32, u32) {
    (c.path, Num(c.f, DstPeerAs), Num(c.f, DstAs), Num(c.f, DatagramVersion))
  }

  /** What reading counters keeps, however it ends. */
  ghost predicate Keeps(raw: seq<byte>, a: Cut, b: Cut) {
    Onward(raw, a.p, b.p) && |a.log| <= |b.log| && EndsOf(a) == EndsOf(b)
  }

  function Print(e: Event, c: Cut): (d: Cut)
    ensures d.p == c.p && EndsOf(d) == EndsOf(c) && |c.log| <= |d.log|
  {
    c.(log := c.log + [e])
  }

  function Keep(d: NumSlot, v: u32, c: Cut): (e: Cut)
    ensures e.p == c.p && |e.log| == |c.log|
    ensures d != DatagramVersion && d != DstPeerAs && d != DstAs ==> EndsOf(e) == EndsOf(c)
  {
    c.(f := SetNum(c.f, d, v))
  }

  function Word(raw: seq<byte>, c: Cut): (g: Got)
    ensures Keeps(raw, c, g.c)
    ensures g.Whole? <==> c.p.at + 4 <= |raw|
    ensures g.Whole? ==> g.w == Word32(raw, c.p.at) && g.c == c.(p := Pos(c.p.at + 4, c.p.work))
    ensures g.Cropped? ==> g.c == c
  {
    match Take(raw, c.p)
    case Next(w, p) => Whole(w, c.(p := p))
    case Ended(p) => Cropped(c.(p := p))
  }

  function Block(n: nat, raw: seq<byte>, c: Cut): (m: Move)
    ensures Keeps(raw, c, m.c) && m.sig != Outside(CounterSample)
    ensures m.sig.Fine? ==> m.c.p == Pos(c.p.at + n, c.p.work)
  {
    var r := Pass(n, raw, c.p);
    Move(r.sig, c.(p := r.p))
  }

  function ReadNum(d: NumSlot, raw: seq<byte>, c: Cut): (m: Move)
    requires d != DatagramVersion && d != DstPeerAs && d != DstAs
    ensures Keeps(raw, c, m.c) && m.sig != Outside(CounterSample)
    ensures m.sig.Fine? ==> m.c.p == Pos(c.p.at + 4, c.p.work)
  {
    var (w, c) :- Word(raw, c);
    Move(Fine, Keep(d, w, c))
  }

  /** Reads one word into a field and prints it. */
  function ReadShown(d: NumSlot, raw: seq<byte>, c: Cut): (m: Move)
    requires d != DatagramVersion && d != DstPeerAs && d != DstAs
    ensures Keeps(raw, c, m.c) && m.sig != Outside(CounterSample)
    ensures m.sig.Fine? ==> m.c.p == Pos(c.p.at + 4, c.p.work)
  {
    var c :- ReadNum(d, raw, c);
    Move(Fine, Print(ShowNum(d, Num(c.f, d)), c))
  }

  /** The VLAN record stores its first word. */
  function VlanStored(raw: seq<byte>, c: Cut): (d: Cut)
    ensures d.p == c.p && EndsOf(d) == EndsOf(c) && d.log == c.log
  {
    if c.p.at + 4 <= |raw| then Keep(InVlan, Word32(raw, c.p.at), c) else c
  }

  // Version 5.

  /** What a record leaves behind besides the place of the cursor. */
  function Marks(tag: u32, len: u32, raw: seq<byte>, c: Cut): (d: Cut)
    ensures d.p == c.p && EndsOf(d) == EndsOf(c) && |c.log| <= |d.log|
  {
    match LayoutOf(tag, len)
    case VlanCounters => VlanStored(raw, c)
    case Unknown => Print(Skipped(false, tag, len), c)
    case _ => c
  }

  /** One record: its tag, its length and its body. No check follows. */
  function ReadElement(raw: seq<byte>, c: Cut): (m: Move)
    ensures Keeps(raw, c, m.c) && m.sig != Outside(CounterSample)
  {
    var (tag, c) :- Word(raw, c);
    var (len, c) :- Word(raw, Print(BlockTag(tag), c));
    var r := ReadCounters(tag, len, raw, c.p);
    Move(r.sig, Marks(tag, len, raw, c).(p := if r.sig.Fine? then Tick(r.p) else r.p))
  }

  function ReadElements(n: nat, raw: seq<byte>, c: Cut): (m: Move)
    ensures Keeps(raw, c, m.c) && m.sig != Outside(CounterSample)
  {
    if n == 0 then Move(Fine, c) else
      var c :- ReadElement(raw, c);
      ReadElements(n - 1, raw, c)
  }

  function ReadRecords(raw: seq<byte>, c: Cut): (m: Move)
    ensures Keeps(raw, c, m.c) && m.sig != Outside(CounterSample)
  {
    var (n, c) :- Word(raw, c);
    ReadElements(n, raw, c)
  }

  function ClassOf(id: u32): u32 {
    id / 0x100_0000
  }

  function IndexOf(id: u32): u32 {
    id % 0x100_0000
  }

  /** The source id of a compact sample shares one word. */
  function ReadSourcePacked(raw: seq<byte>, c: Cut): (m: Move)
    ensures Keeps(raw, c, m.c) && m.sig != Outside(CounterSample)
    ensures m.sig.Fine? ==> m.c.p == Pos(c.p.at + 4, c.p.work)
  {
    var (w, c) :- Word(raw, c);
    Move(Fine, Keep(DsIndex, IndexOf(w), Keep(DsClass, ClassOf(w), c)))
  }

  function ReadSource(expanded: bool, raw: seq<byte>, c: Cut): (m: Move)
    ensures Keeps(raw, c, m.c) && m.sig != Outside(CounterSample)
    ensures m.sig.Fine? ==> m.c.p == Pos(c.p.at + (if expanded then 8 else 4), c.p.work)
  {
    if !expanded then ReadSourcePacked(raw, c) else
      var c :- ReadNum(DsClass, raw, c);
      ReadNum(DsIndex, raw, c)
  }

  /** The sequence number and the source. */
  function ReadTop(expanded: bool, raw: seq<byte>, c: Cut): (m: Move)
    ensures Keeps(raw, c, m.c) && m.sig != Outside(CounterSample)
    ensures m.sig.Fine? ==> m.c.p == Pos(c.p.at + (if expanded then 12 else 8), c.p.work)
  {
    var c :- ReadShown(SamplesGenerated, raw, c);
    var c :- ReadSource(expanded, raw, c);
    Move(Fine, Print(SourceId(Num(c.f, DsClass), Num(c.f, DsIndex)), c))
  }

  /** The bytes moved since `start`, rounded up to words, must be those of `len`
      bytes rounded up, in 32-bit arithmetic. */
  function CheckLength(start: nat, len: u32, c: Cut): (m: Move)
    ensures m.c == c && m.sig != Outside(CounterSample)
  {
    if c.p.at >= start && Quads(c.p.at - start) % Reader.WRAPS == Quads(len) % Reader.WRAPS
    then Move(Fine, c) else Move(Abort(LENGTH_ERROR), c)
  }

  /** Byte lengths rounded up in 32-bit arithmetic agree when the numbers of words do. */
  lemma RoundedLengths(actual: nat, len: u32)
    ensures (actual + 3) / 4 * 4 % 0x1_0000_0000 == (len + 3) / 4 * 4 % 0x1_0000_0000
       <==> Quads(actual) % Reader.WRAPS == Quads(len) % Reader.WRAPS
  {
    FourTimes(Quads(actual));
    FourTimes(Quads(len));
  }

  lemma FourTimes(q: nat)
    ensures q * 4 % 0x1_0000_0000 == q % Reader.WRAPS * 4
  {
  }

  /** Rounding a length that was taken as signed gives the same 32 bits. */
  lemma SignedLength(len: u32)
    ensures var signed := if len < 0x8000_0000 then len as int else len - 0x1_0000_0000;
            (signed + 3) / 4 * 4 % 0x1_0000_0000 == (len + 3) / 4 * 4 % 0x1_0000_0000
  {
    if len >= 0x8000_0000 {
      assert (len - 0x1_0000_0000 + 3) / 4 == (len + 3) / 4 - 0x4000_0000;
    }
  }

  function ReadCountersSample(expanded: bool, raw: seq<byte>, c: Cut): (m: Move)
    ensures Keeps(raw, c, m.c) && m.sig != Outside(CounterSample)
  {
    var (len, c) :- Word(raw, Print(Title(CountersSampleLine), c));
    var d :- ReadTop(expanded, raw, c);
    var d :- ReadRecords(raw, d);
    CheckLength(c.p.at, len, d)
  }

  // Versions 2 and 4.

  /** Every version of the counter block but the VLAN one starts with the generic
      interface counters. */
  function ReadGeneric(version: u32, raw: seq<byte>, c: Cut): (m: Move)
    ensures Keeps(raw, c, m.c) && m.sig != Outside(CounterSample)
  {
    match version
    case 1 | 2 | 3 | 4 | 5 | 6 => Block(88, raw, c)
    case 7 => Move(Fine, c)
    case _ => Move(Abort(DECODE_ERROR), c)
  }

  function ReadSpecific(version: u32, raw: seq<byte>, c: Cut): (m: Move)
    ensures Keeps(raw, c, m.c) && m.sig != Outside(CounterSample)
  {
    match version
    case 2 => Block(52, raw, c)
    case 3 => Block(72, raw, c)
    case 5 => Block(80, raw, c)
    case 7 => Block(28, raw, VlanStored(raw, c))
    case _ => Move(Fine, c)
  }

  function ReadCountersSampleV24(raw: seq<byte>, c: Cut): (m: Move)
    ensures Keeps(raw, c, m.c) && m.sig != Outside(CounterSample)
  {
    var c :- ReadTop(false, raw, Print(Title(CountersSampleLine), c));
    var c :- ReadShown(StatsSamplingInterval, raw, c);
    var c :- ReadShown(CounterBlockVersion, raw, c);
    var version := Num(c.f, CounterBlockVersion);
    var c :- ReadGeneric(version, raw, c);
    ReadSpecific(version, raw, c)
  }
}
