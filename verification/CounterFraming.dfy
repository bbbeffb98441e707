/** Where a counter sample ends that passes its length check. The check rounds the
    bytes moved up to words, but the A10 record of 45 bytes does not move by words. */
module CounterFraming {
  import opened Xdr
  import opened SampleState
  import opened PerEntry
  import opened CounterRecords
  import opened CounterSamples
  import Reader

  /** A reader that ends fine has moved by whole words, and not far past the end. */
  ghost predicate Aligned(raw: seq<byte>, p: Pos, r: Reach) {
    r.sig.Fine? ==> (r.p.at - p.at) % 4 == 0 && r.p.at < |raw| + 0x1_0000
  }

  lemma StringInWords(raw: seq<byte>, p: Pos)
    ensures Aligned(raw, p, PassString(raw, p))
  {
    hide Word32, Quads;
  }

  lemma HostIdInWords(raw: seq<byte>, p: Pos)
    ensures Aligned(raw, p, ReadHostId(raw, p))
  {
    hide PassString;
    StringInWords(raw, p);
    var r := PassString(raw, p);
    if r.sig.Fine? {
      StringInWords(raw, Pos(r.p.at + 24, r.p.work));
    }
  }

  lemma JvmInWords(raw: seq<byte>, p: Pos)
    ensures Aligned(raw, p, ReadJvm(raw, p))
  {
    hide PassString;
    StringInWords(raw, p);
    var r := PassString(raw, p);
    if r.sig.Fine? {
      StringInWords(raw, r.p);
      StringInWords(raw, PassString(raw, r.p).p);
    }
  }

  lemma AppInWords(raw: seq<byte>, p: Pos)
    ensures Aligned(raw, p, ReadApp(raw, p))
  {
    hide PassString;
    StringInWords(raw, p);
  }

  lemma {:induction false} MacsInWords(n: nat, raw: seq<byte>, p: Pos)
    requires p.at < |raw| + 0x1_0000
    ensures Aligned(raw, p, ReadMacs(n, raw, p))
    decreases n
  {
    if n == 0 {
    } else if Pass(8, raw, p).sig.Fine? {
      MacsInWords(n - 1, raw, Tick(Pass(8, raw, p).p));
    }
  }

  lemma AdaptorInWords(raw: seq<byte>, p: Pos)
    ensures Aligned(raw, p, ReadAdaptor(raw, p))
  {
    hide ReadMacs, Word32;
    if p.at + 8 <= |raw| {
      MacsInWords(Word32(raw, p.at + 4), raw, Pos(p.at + 8, p.work));
    }
  }

  lemma {:induction false} AdaptorsInWords(n: nat, raw: seq<byte>, p: Pos)
    requires p.at < |raw| + 0x1_0000
    ensures Aligned(raw, p, ReadAdaptors(n, raw, p))
    decreases n
  {
    hide ReadAdaptor;
    if n == 0 {
    } else {
      AdaptorInWords(raw, p);
      var r := ReadAdaptor(raw, p);
      if r.sig.Fine? {
        AdaptorsInWords(n - 1, raw, Tick(r.p));
      }
    }
  }

  lemma AllAdaptorsInWords(raw: seq<byte>, p: Pos)
    ensures Aligned(raw, p, ReadAllAdaptors(raw, p))
  {
    hide ReadAdaptors, Word32;
    if p.at + 4 <= |raw| {
      AdaptorsInWords(Word32(raw, p.at), raw, Pos(p.at + 4, p.work));
    }
  }

  lemma StatInWords(i: nat, room: nat, raw: seq<byte>, p: Pos)
    ensures Aligned(raw, p, ReadStat(i, room, raw, p))
  {
    hide Word32;
  }

  lemma {:induction false} StatsInWords(i: nat, n: nat, room: nat, raw: seq<byte>, p: Pos)
    requires p.at < |raw| + 0x1_0000
    ensures Aligned(raw, p, ReadStats(i, n, room, raw, p))
    decreases n - i
  {
    hide ReadStat;
    if i >= n {
    } else {
      StatInWords(i, room, raw, p);
      var r := ReadStat(i, room, raw, p);
      if r.sig.Fine? {
        StatsInWords(i + 1, n, room, raw, Tick(r.p));
      }
    }
  }

  lemma EntryStatsInWords(raw: seq<byte>, p: Pos)
    ensures Aligned(raw, p, ReadEntryStats(raw, p))
  {
    hide ReadStats, Word32, CommonEnd;
    if CommonEnd(raw, p.at).Fine? && p.at + COMMON + 4 <= |raw| {
      var q := Pos(p.at + COMMON + 4, p.work);
      StatsInWords(0, Word32(raw, p.at + COMMON), PROTO_STATS, raw, q);
      var r := ReadStats(0, Word32(raw, p.at + COMMON), PROTO_STATS, raw, q);
      if r.sig.Fine? && r.p.at + 4 <= |raw| {
        StatsInWords(0, Word32(raw, r.p.at), APP_STATS, raw, Pos(r.p.at + 4, r.p.work));
      }
    }
  }

  lemma TablesInWords(counters: nat, len: u32, raw: seq<byte>, p: Pos)
    requires p.at <= |raw|
    ensures Aligned(raw, p, ReadTable64(counters, len, raw, p))
    ensures Aligned(raw, p, ReadTable32(counters, len, raw, p))
  {
    hide Fill64At, Fill32At;
    FillsMove(len % 0x1_0000, raw, p.at, Repeat<u64>(0, counters), Repeat<u32>(0, counters));
  }

  lemma FillsMove(parse: nat, raw: seq<byte>, at: nat, old64: seq<u64>, old32: seq<u32>)
    ensures var f := Fill64At(parse, raw, at, old64); f.sig.Fine? ==> f.datap == at + parse && parse % 4 == 0
    ensures var f := Fill32At(parse, raw, at, old32); f.sig.Fine? ==> f.datap == at + parse && parse % 4 == 0
  {
    Fill64Moves(parse, raw, at, old64);
    hide Fill64At, Arrived32;
    if parse % 8 == 0 {
      EightsAreFours(parse);
    }
  }

  lemma Fill64Moves(parse: nat, raw: seq<byte>, at: nat, old64: seq<u64>)
    ensures var f := Fill64At(parse, raw, at, old64); f.sig.Fine? ==> f.datap == at + parse && parse % 8 == 0
  {
    hide Arrived;
  }

  lemma EightsAreFours(n: nat)
    requires n % 8 == 0
    ensures n % 4 == 0
  {
    assert n == 4 * (2 * (n / 8));
  }

  lemma EntryInWords(k: Kind, len: u32, raw: seq<byte>, p: Pos)
    ensures Aligned(raw, p, ReadEntry(k, len, raw, p))
  {
    hide EntryAt, Counters, PerEntry.HeaderLen;
    var e := EntryAt(k, len, raw, p.at, Repeat<u64>(0, Counters(k)));
    if e.sig.Fine? {
      EntryEnds(k, len, raw, p.at, Repeat<u64>(0, Counters(k)));
      EntryWhole(k, len, raw, p.at, Repeat<u64>(0, Counters(k)));
      SumInWords(PerEntry.HeaderLen(k), (len - PerEntry.HeaderLen(k)) % 0x1_0000);
    }
  }

  lemma SumInWords(h: nat, parse: nat)
    requires (h == 48 || h == 52) && parse % 8 == 0
    ensures (h + parse) % 4 == 0
  {
  }

  lemma EntryWhole(k: Kind, len: u32, raw: seq<byte>, at: nat, old64: seq<u64>)
    requires |old64| == Counters(k) && EntryAt(k, len, raw, at, old64).sig.Fine?
    ensures at + PerEntry.HeaderLen(k) <= |raw| && len >= PerEntry.HeaderLen(k)
    ensures (len - PerEntry.HeaderLen(k)) % 0x1_0000 % 8 == 0
    ensures PerEntry.HeaderLen(k) == 48 || PerEntry.HeaderLen(k) == 52
  {
    hide Word16, Word32, HeaderAt, Arrived, Counters, CommonEnd;
  }

  /** All records but one kind are whole words; that one is a byte more. */
  lemma RecordMoves(tag: u32, len: u32, raw: seq<byte>, p: Pos)
    requires p.at <= |raw|
    requires ReadCounters(tag, len, raw, p).sig.Fine?
    ensures var r := ReadCounters(tag, len, raw, p);
            && r.p.at < |raw| + 0x1_0000
            && (r.p.at - p.at) % 4 == if LayoutOf(tag, len).Custom? then 1 else 0
  {
    hide ReadHostId, ReadAllAdaptors, ReadJvm, ReadApp, ReadCustom, ReadTable64, ReadTable32, ReadEntry,
         ReadEntryPort, ReadEntryStats, ReadEntryMap, LayoutOf, Quads;
    match LayoutOf(tag, len)
    case Plain(n) => PlainWhole(tag, len);
    case VlanCounters =>
    case HostId => HostIdInWords(raw, p);
    case Adaptors => AllAdaptorsInWords(raw, p);
    case Jvm => JvmInWords(raw, p);
    case App => AppInWords(raw, p);
    case Custom => CustomMoves(len, raw, p);
    case Table64(counters) => TablesInWords(counters, len, raw, p);
    case Table32(counters) => TablesInWords(counters, len, raw, p);
    case PerKind(kind) => EntryInWords(kind, len, raw, p);
    case EntryPort => EntryPortInWords(raw, p);
    case EntryStats => EntryStatsInWords(raw, p);
    case EntryMap => EntryMapInWords(raw, p);
    case Unknown =>
  }

  lemma PlainWhole(tag: u32, len: u32)
    ensures LayoutOf(tag, len).Plain? ==> LayoutOf(tag, len).n % 4 == 0
  {
  }

  lemma CustomMoves(len: u32, raw: seq<byte>, p: Pos)
    requires ReadCustom(len, raw, p).sig.Fine?
    ensures var r := ReadCustom(len, raw, p); r.p.at <= |raw| && (r.p.at - p.at) % 4 == 1
  {
    hide ZeroFrom, PairBytes, Quads;
  }

  lemma EntryPortInWords(raw: seq<byte>, p: Pos)
    ensures Aligned(raw, p, ReadEntryPort(raw, p))
  {
    hide CommonEnd;
  }

  lemma EntryMapInWords(raw: seq<byte>, p: Pos)
    ensures Aligned(raw, p, ReadEntryMap(raw, p))
  {
  }

  // Samples.

  /** How many of the n records from p on are the one of 45 bytes. */
  function Customs(n: nat, raw: seq<byte>, p: Pos): nat {
    if n == 0 || p.at + 8 > |raw| then 0 else
      var tag, len := Word32(raw, p.at), Word32(raw, p.at + 4);
      var r := ReadCounters(tag, len, raw, Pos(p.at + 8, p.work));
      (if LayoutOf(tag, len).Custom? then 1 else 0) + (if r.sig.Fine? then Customs(n - 1, raw, Tick(r.p)) else 0)
  }

  lemma ElementMoves(raw: seq<byte>, c: Cut)
    requires ReadElement(raw, c).sig.Fine?
    ensures c.p.at + 8 <= |raw|
    ensures var tag, len, d := Word32(raw, c.p.at), Word32(raw, c.p.at + 4), ReadElement(raw, c).c;
            && var r := ReadCounters(tag, len, raw, Pos(c.p.at + 8, c.p.work));
            && r.sig.Fine? && d.p == Tick(r.p) && d.p.at < |raw| + 0x1_0000
            && (d.p.at - c.p.at) % 4 == if LayoutOf(tag, len).Custom? then 1 else 0
  {
    hide ReadCounters, LayoutOf, Word32, Marks;
    RecordMoves(Word32(raw, c.p.at), Word32(raw, c.p.at + 4), raw, Pos(c.p.at + 8, c.p.work));
  }

  lemma {:induction false} ElementsMove(n: nat, raw: seq<byte>, c: Cut)
    requires c.p.at < |raw| + 0x1_0000 && ReadElements(n, raw, c).sig.Fine?
    ensures var d := ReadElements(n, raw, c).c;
            d.p.at < |raw| + 0x1_0000 && (d.p.at - c.p.at) % 4 == Customs(n, raw, c.p) % 4
    decreases n
  {
    hide ReadElement, ReadCounters, LayoutOf, Word32;
    if n == 0 {
    } else {
      ElementMoves(raw, c);
      var d := ReadElement(raw, c).c;
      ElementsMove(n - 1, raw, d);
      var tag, len := Word32(raw, c.p.at), Word32(raw, c.p.at + 4);
      AddedUp(d.p.at - c.p.at, ReadElements(n - 1, raw, d).c.p.at - d.p.at,
              if LayoutOf(tag, len).Custom? then 1 else 0, Customs(n - 1, raw, d.p));
    }
  }

  lemma AddedUp(a: int, b: int, j: nat, k: nat)
    requires a % 4 == j && b % 4 == k % 4
    ensures (a + b) % 4 == (j + k) % 4
  {
  }

  function TopLen(expanded: bool): nat {
    if expanded then 12 else 8
  }

  /** How many records of 45 bytes the counter sample has whose length is at `p`. */
  function CustomsOf(expanded: bool, raw: seq<byte>, p: Pos): nat {
    var at := p.at + 4 + TopLen(expanded);
    if at + 4 <= |raw| then Customs(Word32(raw, at), raw, Pos(at + 4, p.work)) else 0
  }

  /** How far short of whole words k records of 45 bytes end. */
  function Shortfall(k: nat): (s: nat)
    ensures s < 4 && (s == 0 <==> k % 4 == 0)
  {
    (4 - k % 4) % 4
  }

  lemma RecordsAre(raw: seq<byte>, c: Cut)
    ensures ReadRecords(raw, c).sig.Fine? ==> c.p.at + 4 <= |raw|
    ensures c.p.at + 4 <= |raw| ==>
              ReadRecords(raw, c) == ReadElements(Word32(raw, c.p.at), raw, c.(p := Pos(c.p.at + 4, c.p.work)))
  {
    hide ReadElements, Word32;
  }

  lemma RecordsMove(raw: seq<byte>, c: Cut)
    requires ReadRecords(raw, c).sig.Fine?
    ensures c.p.at + 4 <= |raw|
    ensures var d, first := ReadRecords(raw, c).c, Pos(c.p.at + 4, c.p.work);
            && c.p.at + 4 <= d.p.at < |raw| + 0x1_0000
            && (d.p.at - c.p.at) % 4 == Customs(Word32(raw, c.p.at), raw, first) % 4
  {
    hide ReadRecords, ReadElements, Word32, Customs, EndsOf, Seen;
    RecordsAre(raw, c);
    var n, first := Word32(raw, c.p.at), c.(p := Pos(c.p.at + 4, c.p.work));
    ElementsMove(n, raw, first);
    var end := ReadElements(n, raw, first).c.p.at;
    SameRest(end - first.p.at, Customs(n, raw, first.p), 4);
    assert end - first.p.at + 4 == end - c.p.at;
  }

  lemma SampleParts(expanded: bool, raw: seq<byte>, c: Cut)
    requires ReadCountersSample(expanded, raw, c).sig.Fine?
    ensures c.p.at + 4 <= |raw|
    ensures var m := ReadTop(expanded, raw, Print(Title(CountersSampleLine), c).(p := Pos(c.p.at + 4, c.p.work)));
            && m.sig.Fine? && m.c.p == Pos(c.p.at + 4 + TopLen(expanded), c.p.work)
            && var o := ReadRecords(raw, m.c);
            && o.sig.Fine? && CheckLength(c.p.at + 4, Word32(raw, c.p.at), o.c).sig.Fine?
            && ReadCountersSample(expanded, raw, c).c == o.c
  {
    hide ReadRecords, ReadTop, Word32, CheckLength;
  }

  /** A counter sample that returns normally ends at its padded length, less what its
      records of 45 bytes fall short of whole words. */
  lemma CounterSampleEnds(expanded: bool, raw: seq<byte>, c: Cut)
    requires |raw| < 0x8000_0000 && ReadCountersSample(expanded, raw, c).sig.Fine?
    ensures c.p.at + 8 + TopLen(expanded) <= |raw|
    ensures var d := ReadCountersSample(expanded, raw, c).c;
            d.p.at + Shortfall(CustomsOf(expanded, raw, c.p)) == c.p.at + 4 + 4 * Quads(Word32(raw, c.p.at))
  {
    hide ReadRecords, ReadTop, Word32, Customs, Quads, ReadCountersSample, Shortfall;
    SampleParts(expanded, raw, c);
    var top := ReadTop(expanded, raw, Print(Title(CountersSampleLine), c).(p := Pos(c.p.at + 4, c.p.work))).c;
    RecordsMove(raw, top);
    var k := Customs(Word32(raw, top.p.at), raw, Pos(top.p.at + 4, top.p.work));
    var moved := ReadRecords(raw, top).c.p.at - (c.p.at + 4);
    SameRest(moved - TopLen(expanded), k, TopLen(expanded));
    RoundedUp(moved, Word32(raw, c.p.at), k);
  }

  lemma SameRest(a: int, k: nat, words: nat)
    requires a % 4 == k % 4 && words % 4 == 0
    ensures (a + words) % 4 == k % 4
  {
  }

  lemma RoundedUp(moved: nat, len: u32, k: nat)
    requires 0 < moved < 0xFFFF_0000 && moved % 4 == k % 4
    requires Quads(moved) % Reader.WRAPS == Quads(len) % Reader.WRAPS
    ensures moved + Shortfall(k) == 4 * Quads(len)
  {
  }

  /** So it ends where its length field says if and only if the number of its records
      of 45 bytes is a multiple of four. */
  lemma EndsAsDeclared(expanded: bool, raw: seq<byte>, c: Cut)
    requires |raw| < 0x8000_0000 && ReadCountersSample(expanded, raw, c).sig.Fine?
    ensures ReadCountersSample(expanded, raw, c).c.p.at == c.p.at + 4 + 4 * Quads(Word32(raw, c.p.at))
       <==> CustomsOf(expanded, raw, c.p) % 4 == 0
  {
    hide ReadCountersSample, CustomsOf, Quads, Word32;
    CounterSampleEnds(expanded, raw, c);
  }

  /** The words of such a sample from its length on: 65 bytes with one record of 45. */
  const OF_65_BYTES: seq<byte> := [0, 0, 0, 65, 0, 0, 0, 0, 0, 0, 0, 0, 0, 0, 0, 1, 0, 0, 0, 1, 0, 0, 0, 45]

  /** The sample behind other bytes, with a whole UUID. */
  function Behind(front: seq<byte>): seq<byte> {
    front + OF_65_BYTES + Repeat<byte>(49, UUID_LEN) + Repeat<byte>(0, 12)
  }

  lemma LengthsOf65Bytes(front: seq<byte>)
    ensures var raw, n := Behind(front), |front|;
            && |raw| == n + 72
            && Word32(raw, n) == 65 && Word32(raw, n + 12) == 1
            && Word32(raw, n + 16) == 1 && Word32(raw, n + 20) == 45
            && ZeroFrom(raw, n + 24) == n + 60
  {
    hide ZeroFrom, Repeat;
    var raw, n := Behind(front), |front|;
    assert raw[n + 60] == 0 && forall j :: n + 24 <= j < n + 60 ==> raw[j] == 49;
  }

  lemma CustomOf65Bytes(front: seq<byte>, w: nat)
    ensures ReadCounters(1, 45, Behind(front), Pos(|front| + 24, w)) == Reach(Fine, Pos(|front| + 69, w))
  {
    LengthsOf65Bytes(front);
    hide ZeroFrom, Behind, Word32;
  }

  lemma ElementOf65Bytes(front: seq<byte>, c: Cut)
    requires c.p.at == |front| + 16
    ensures ReadElement(Behind(front), c).sig.Fine? && ReadElement(Behind(front), c).c.p.at == |front| + 69
  {
    LengthsOf65Bytes(front);
    CustomOf65Bytes(front, c.p.work);
    hide ReadCounters, ZeroFrom, Behind, Word32, Marks;
  }

  lemma RecordsOf65Bytes(front: seq<byte>, c: Cut)
    requires c.p.at == |front| + 12
    ensures ReadRecords(Behind(front), c).sig.Fine? && ReadRecords(Behind(front), c).c.p.at == |front| + 69
  {
    LengthsOf65Bytes(front);
    hide ReadElement, ZeroFrom, Behind, Word32;
    var d := c.(p := Pos(|front| + 16, c.p.work));
    ElementOf65Bytes(front, d);
    assert ReadElements(1, Behind(front), d) == ReadElements(0, Behind(front), ReadElement(Behind(front), d).c);
  }

  lemma TopOf65Bytes(front: seq<byte>, c: Cut)
    requires c.p.at == |front| + 4
    ensures ReadTop(false, Behind(front), c).sig.Fine?
  {
    LengthsOf65Bytes(front);
    hide Behind, Word32;
  }

  /** It returns normally, three bytes in front of the end of its padded length. */
  lemma FallsShort(front: seq<byte>, c: Cut)
    requires c.p.at == |front|
    ensures var m := ReadCountersSample(false, Behind(front), c);
            m.sig.Fine? && m.c.p.at == c.p.at + 69 && 4 + 4 * Quads(65) == 72
  {
    LengthsOf65Bytes(front);
    hide ReadTop, ReadRecords, Behind, Word32;
    var d := Print(Title(CountersSampleLine), c).(p := Pos(|front| + 4, c.p.work));
    TopOf65Bytes(front, d);
    RecordsOf65Bytes(front, ReadTop(false, Behind(front), d).c);
  }

  // The standard interface counters, which have the tag of the 45-byte record.

  /** A compact sample, from its length at `at` on, with one record of generic interface
      counters (88 bytes) of an interface whose index is below 2^24. */
  predicate OneInterface(raw: seq<byte>, at: nat) {
    && at + 112 <= |raw|
    && Word32(raw, at) == 108 && Word32(raw, at + 12) == 1
    && Word32(raw, at + 16) == 1 && Word32(raw, at + 20) == 88 && raw[at + 24] == 0
  }

  lemma InterfaceRecord(raw: seq<byte>, at: nat, w: nat)
    requires OneInterface(raw, at)
    ensures ReadCounters(1, 88, raw, Pos(at + 24, w)) == Reach(Fine, Pos(at + 69, w))
  {
    hide Word32;
    assert ZeroFrom(raw, at + 24) == at + 24;
  }

  lemma InterfaceElement(raw: seq<byte>, at: nat, c: Cut)
    requires OneInterface(raw, at) && c.p.at == at + 16
    ensures ReadElement(raw, c).sig.Fine? && ReadElement(raw, c).c.p.at == at + 69
  {
    InterfaceRecord(raw, at, c.p.work);
    hide ReadCounters, Word32, Marks;
  }

  lemma InterfaceRecords(raw: seq<byte>, at: nat, c: Cut)
    requires OneInterface(raw, at) && c.p.at == at + 12
    ensures ReadRecords(raw, c).sig.Fine? && ReadRecords(raw, c).c.p.at == at + 69
  {
    hide ReadElement, Word32;
    var d := c.(p := Pos(at + 16, c.p.work));
    InterfaceElement(raw, at, d);
    assert ReadElements(1, raw, d) == ReadElements(0, raw, ReadElement(raw, d).c);
  }

  lemma InterfaceTop(raw: seq<byte>, at: nat, c: Cut)
    requires OneInterface(raw, at) && c.p.at == at + 4
    ensures ReadTop(false, raw, c).sig.Fine?
  {
    hide Word32;
  }

  /** Such a sample is refused: the record is taken for the 45-byte one, its UUID is not
      whole, and what is left of it is missing at the length check. */
  lemma InterfaceRefused(raw: seq<byte>, c: Cut)
    requires OneInterface(raw, c.p.at)
    ensures ReadCountersSample(false, raw, c).sig == Abort(3)
  {
    hide ReadTop, ReadRecords, Word32;
    var d := Print(Title(CountersSampleLine), c).(p := Pos(c.p.at + 4, c.p.work));
    InterfaceTop(raw, c.p.at, d);
    InterfaceRecords(raw, c.p.at, ReadTop(false, raw, d).c);
    assert Quads(65) == 17 && Quads(108) == 27;
  }
}
