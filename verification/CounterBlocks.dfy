/** Decoding the counter samples of versions 2 and 4, and when the counted tables of
    version 5 are read. */
module CounterBlocks {
  import opened Xdr
  import opened SampleState
  import opened PerEntry
  import opened ByteFields
  import opened EntryTrip
  import opened CounterRecords
  import opened CounterSamples
  import opened CounterTrip
  import E = CounterEncoding

  // The tables.

  lemma FieldsOf(format: nat, len: u32)
    requires format < 100
    ensures format in E.FIELDS_64 <==> format in E.TABLES_64
    ensures format in E.FIELDS_32 <==> format in E.TABLES_32
    ensures format in E.FIELDS_64 ==> LayoutOf(E.A10_FORMATS + format, len) == Table64(E.FIELDS_64[format])
    ensures format in E.FIELDS_32 ==> LayoutOf(E.A10_FORMATS + format, len) == Table32(E.FIELDS_32[format])
  {
  }

  lemma TableRead(counters: nat, n: nat, raw: seq<byte>, p: Pos)
    requires n < 8192 && counters > 0
    ensures ReadTable64(counters, 8 * n, raw, p).sig.Fine? <==> n > 0 && p.at + 8 * Min(n, counters) <= |raw|
  {
    hide Arrived, Repeat;
    Eights(n);
  }

  lemma Fours(n: nat)
    ensures 4 * n / 4 == n && 4 * n % 4 == 0
  {
  }

  lemma TableRead32(counters: nat, n: nat, raw: seq<byte>, p: Pos)
    requires n < 16384 && counters > 0
    ensures ReadTable32(counters, 4 * n, raw, p).sig.Fine? <==> n > 0 && p.at + 4 * Min(n, counters) <= |raw|
  {
    hide Arrived32, Repeat;
    Fours(n);
  }

  /** A table of n counters is read if and only if it is not empty and those that there are
      fields for lie in the buffer. */
  lemma TablesRead(format: nat, n: nat, raw: seq<byte>, p: Pos)
    requires n < 8192
    ensures format in E.FIELDS_64 ==>
              (ReadCounters(E.A10_FORMATS + format, 8 * n, raw, p).sig.Fine?
               <==> n > 0 && p.at + 8 * Min(n, E.FIELDS_64[format]) <= |raw|)
    ensures format in E.FIELDS_32 ==>
              (ReadCounters(E.A10_FORMATS + format, 4 * n, raw, p).sig.Fine?
               <==> n > 0 && p.at + 4 * Min(n, E.FIELDS_32[format]) <= |raw|)
  {
    hide LayoutOf, ReadTable64, ReadTable32, Min;
    if format in E.FIELDS_64 {
      FieldsOf(format, 8 * n);
      TableRead(E.FIELDS_64[format], n, raw, p);
    }
    if format in E.FIELDS_32 {
      FieldsOf(format, 4 * n);
      TableRead32(E.FIELDS_32[format], n, raw, p);
    }
  }

  // The statistics of an entry, in tables of four protocols and three applications.

  lemma StatBehindTable(i: nat, room: nat, s: E.Stat, raw: seq<byte>, p: Pos)
    requires i >= room && Lies(E.PutStat(s), raw, p.at)
    ensures ReadStat(i, room, raw, p).sig == Outside(BadIndex)
  {
    hide Lies, Split, Bytes, Take;
    InBuffer(E.PutStat(s), raw, p.at);
    LiesParts(Split(s.protocol), Split(s.state) + Bytes(s.numbers), raw, p.at);
    WordTaken(s.protocol, raw, p);
  }

  lemma {:induction false} StatsBehindTable(i: nat, room: nat, stats: seq<E.Stat>, raw: seq<byte>, p: Pos)
    requires i <= room < i + |stats| && E.StatsOk(stats) && Lies(E.PutStats(stats), raw, p.at)
    ensures ReadStats(i, i + |stats|, room, raw, p).sig == Outside(BadIndex)
    decreases |stats|
  {
    hide Lies, ReadStat, E.PutStat, E.StatOk;
    assert stats[0] in stats && forall s :: s in stats[1..] ==> s in stats;
    LiesParts(E.PutStat(stats[0]), E.PutStats(stats[1..]), raw, p.at);
    if i == room {
      StatBehindTable(i, room, stats[0], raw, p);
    } else {
      StatAt(i, room, stats[0], raw, p);
      StatsBehindTable(i + 1, room, stats[1..], raw, Pos(p.at + |E.PutStat(stats[0])|, p.work + 1));
    }
  }

  lemma CountedBehindTable(room: nat, stats: seq<E.Stat>, raw: seq<byte>, p: Pos)
    requires room < |stats| < 0x1_0000_0000 && E.StatsOk(stats) && Lies(E.PutCounted(stats), raw, p.at)
    ensures Take(raw, p) == Next(|stats|, Pos(p.at + 4, p.work))
    ensures ReadStats(0, |stats|, room, raw, Pos(p.at + 4, p.work)).sig == Outside(BadIndex)
  {
    hide Lies, Split, Take, ReadStats, E.PutStats, E.StatsOk;
    LiesParts(Split(|stats|), E.PutStats(stats), raw, p.at);
    WordTaken(|stats|, raw, p);
    StatsBehindTable(0, room, stats, raw, Pos(p.at + 4, p.work));
  }

  /** Such a record is read if and only if it has no more than four protocols and no more
      than three applications; the next one leaves its table. */
  lemma StatisticsRead(c: E.Common, protocols: seq<E.Stat>, applications: seq<E.Stat>, raw: seq<byte>, p: Pos)
    requires E.CommonOk(c) && E.StatsOk(protocols) && E.StatsOk(applications)
    requires |protocols| < 0x1_0000_0000 && |applications| < 0x1_0000_0000
    requires Lies(E.PutStatistics(c, protocols, applications), raw, p.at)
    ensures ReadEntryStats(raw, p).sig
         == if |protocols| <= 4 && |applications| <= 3 then Fine else Outside(BadIndex)
  {
    hide *;
    var a, b := E.PutCounted(protocols), E.PutCounted(applications);
    StatisticsLie(c, protocols, applications, raw, p);
    var q := Pos(p.at + 48, p.work);
    if |protocols| > 4 {
      CountedBehindTable(4, protocols, raw, q);
      ProtocolsFirst(|protocols|, raw, p);
    } else {
      CountedAt(4, protocols, raw, q);
      ProtocolsFirst(|protocols|, raw, p);
      var z := Pos(q.at + |a|, q.work + |protocols|);
      if |applications| > 3 {
        CountedBehindTable(3, applications, raw, z);
      } else {
        CountedAt(3, applications, raw, z);
      }
    }
  }

  /** One of these is read if and only if its first word is one of eight protocols, its second
      one of four states, and it is all there. */
  lemma StatRead(i: nat, room: nat, raw: seq<byte>, p: Pos)
    requires i < room
    ensures ReadStat(i, room, raw, p).sig
         == if p.at + 4 <= |raw| && Word32(raw, p.at) >= 8 then Outside(BadIndex)
            else if p.at + 8 <= |raw| && Word32(raw, p.at + 4) >= 4 then Outside(BadIndex)
            else if p.at + 80 <= |raw| then Fine else Abort(EOS)
  {
    hide Word32;
  }

  /** An entry map is read if and only if its port type is one of eight, or none, and it is
      all there. */
  lemma MapRead(raw: seq<byte>, p: Pos)
    ensures ReadEntryMap(raw, p).sig
         == if p.at + 2 <= |raw| && raw[p.at + 1] > 8 then Outside(BadIndex)
            else if p.at + 68 <= |raw| then Fine else Abort(EOS)
  {
  }

  // Versions 2 and 4.

  lemma GenericSize()
    ensures Fixed(E.GENERIC) && Sizes(E.GENERIC) == 88
  {
    var fs := E.GENERIC;
    SumOf(fs);
    SumOf(fs[4..]);
  }

  lemma SpecificSize(block: u32)
    ensures Fixed(E.SpecificFormat(block))
    ensures Sizes(E.SpecificFormat(2)) == 52 && Sizes(E.SpecificFormat(3)) == 72 && Sizes(E.SpecificFormat(5)) == 80
    ensures block != 2 && block != 3 && block != 5 ==> Sizes(E.SpecificFormat(block)) == 0
  {
    FormatSum(E.SpecificFormat(2));
    FormatSum(E.SpecificFormat(3));
    FormatSum(E.SpecificFormat(5));
  }

  lemma VlanSize()
    ensures Fixed(E.VLAN_BLOCK) && Sizes(E.VLAN_BLOCK) == 28
  {
    FormatSum(E.VLAN_BLOCK);
  }

  /** Each block is passed over by its size. */
  lemma BlockSize(block: u32)
    requires 1 <= block <= 7
    ensures Fixed(E.BlockFormat(block))
    ensures Sizes(E.BlockFormat(block))
         == if block == 7 then 28
            else 88 + (if block == 2 then 52 else if block == 3 then 72 else if block == 5 then 80 else 0)
  {
    hide Sizes, E.SpecificFormat;
    GenericSize();
    SpecificSize(block);
    VlanSize();
    SizesAdd(E.GENERIC, E.SpecificFormat(block));
  }

  lemma BlocksAt(block: u32, raw: seq<byte>, c: Cut)
    requires 1 <= block <= 7 && c.p.at + Sizes(E.BlockFormat(block)) <= |raw|
    ensures var o := ReadGeneric(block, raw, c);
            && o.sig.Fine?
            && ReadSpecific(block, raw, o.c)
               == Move(Fine, (if block == 7 then VlanStored(raw, c) else c)
                             .(p := Pos(c.p.at + Sizes(E.BlockFormat(block)), c.p.work)))
  {
    BlockSize(block);
    hide Sizes, E.BlockFormat;
  }

  function OldTopAfter(s: E.OldCounters, c: Cut): Cut
    requires E.OldCountersOk(s)
  {
    var num := c.f.num[SamplesGenerated := s.sequence][DsClass := s.dsClass][DsIndex := s.dsIndex]
      [StatsSamplingInterval := s.interval][CounterBlockVersion := s.block];
    Cut(Pos(c.p.at + 16, c.p.work), c.f.(num := num), c.path, c.log + E.OldCountersLines(s))
  }

  lemma OldWords(s: E.OldCounters, raw: seq<byte>, at: nat)
    requires E.OldCountersOk(s) && Lies(E.PutOldCounters(s), raw, at)
    ensures at + 16 <= |raw|
    ensures Word32(raw, at) == s.sequence && Word32(raw, at + 8) == s.interval && Word32(raw, at + 12) == s.block
    ensures ClassOf(Word32(raw, at + 4)) == s.dsClass && IndexOf(Word32(raw, at + 4)) == s.dsIndex
    ensures Lies(E.PutValues(E.BlockFormat(s.block), s.values), raw, at + 16)
    ensures |E.PutOldCounters(s)| == 16 + |E.PutValues(E.BlockFormat(s.block), s.values)|
  {
    InBuffer(E.PutOldCounters(s), raw, at);
    hide Lies, Split, Word32, E.PutValues, E.BlockFormat, ClassOf, IndexOf;
    var values := E.PutValues(E.BlockFormat(s.block), s.values);
    var id := s.dsClass * 0x100_0000 + s.dsIndex;
    PackedSource(s.dsClass, s.dsIndex);
    LiesParts(Split(s.sequence), Split(id) + (Split(s.interval) + (Split(s.block) + values)), raw, at);
    LiesParts(Split(id), Split(s.interval) + (Split(s.block) + values), raw, at + 4);
    LiesParts(Split(s.interval), Split(s.block) + values, raw, at + 8);
    LiesParts(Split(s.block), values, raw, at + 12);
    WordLies(s.sequence, raw, at);
    WordLies(id, raw, at + 4);
    WordLies(s.interval, raw, at + 8);
    WordLies(s.block, raw, at + 12);
  }

  function SourceRead(s: E.OldCounters, c: Cut): Cut {
    Cut(Pos(c.p.at + 8, c.p.work),
        c.f.(num := c.f.num[SamplesGenerated := s.sequence][DsClass := s.dsClass][DsIndex := s.dsIndex]),
        c.path, c.log + [ShowNum(SamplesGenerated, s.sequence)] + [SourceId(s.dsClass, s.dsIndex)])
  }

  lemma SourceReadAt(s: E.OldCounters, raw: seq<byte>, c: Cut)
    requires c.p.at + 8 <= |raw| && Word32(raw, c.p.at) == s.sequence
    requires ClassOf(Word32(raw, c.p.at + 4)) == s.dsClass && IndexOf(Word32(raw, c.p.at + 4)) == s.dsIndex
    ensures ReadTop(false, raw, c) == Move(Fine, SourceRead(s, c))
  {
    hide Word32, ClassOf, IndexOf;
  }

  lemma OldLog(s: E.OldCounters, log: seq<Event>)
    ensures log + [Title(CountersSampleLine)] + [ShowNum(SamplesGenerated, s.sequence)]
            + [SourceId(s.dsClass, s.dsIndex)] + [ShowNum(StatsSamplingInterval, s.interval)]
            + [ShowNum(CounterBlockVersion, s.block)] == log + E.OldCountersLines(s)
  {
  }

  lemma OldTopAt(s: E.OldCounters, raw: seq<byte>, c: Cut)
    requires E.OldCountersOk(s) && c.p.at + 16 <= |raw|
    requires Word32(raw, c.p.at) == s.sequence && Word32(raw, c.p.at + 8) == s.interval
    requires ClassOf(Word32(raw, c.p.at + 4)) == s.dsClass && IndexOf(Word32(raw, c.p.at + 4)) == s.dsIndex
    requires Word32(raw, c.p.at + 12) == s.block
    ensures var d := OldTopAfter(s, c);
            ReadCountersSampleV24(raw, c)
            == var o := ReadGeneric(s.block, raw, d);
               if o.sig.Fine? then ReadSpecific(s.block, raw, o.c) else o
  {
    hide Word32, ReadTop, ReadGeneric, ReadSpecific, ClassOf, IndexOf, E.OldCountersOk, E.OldCountersLines;
    SourceReadAt(s, raw, Print(Title(CountersSampleLine), c));
    OldLog(s, c.log);
  }

  function OldAfter(s: E.OldCounters, c: Cut): Cut
    requires E.OldCountersOk(s)
  {
    Cut(Pos(c.p.at + |E.PutOldCounters(s)|, c.p.work), E.OldCountersFields(s, c.f), c.path,
        c.log + E.OldCountersLines(s))
  }

  lemma VlanBlockFirst(vs: seq<E.Value>, raw: seq<byte>, at: nat)
    requires E.AllMatch(E.VLAN_BLOCK, vs) && Lies(E.PutValues(E.VLAN_BLOCK, vs), raw, at)
    ensures at + 4 <= |raw| && Word32(raw, at) == vs[0].ints[0]
  {
    assert E.Format(5, |vs|) == E.VLAN_BLOCK;
    VlanFirst(vs, raw, at);
  }

  /** A counter sample of version 2 or 4, wherever it lies, returns right behind its block. */
  lemma OldCountersAt(s: E.OldCounters, raw: seq<byte>, c: Cut)
    requires E.OldCountersOk(s) && Lies(E.PutOldCounters(s), raw, c.p.at)
    ensures ReadCountersSampleV24(raw, c) == Move(Fine, OldAfter(s, c))
  {
    var fs := E.BlockFormat(s.block);
    OldWords(s, raw, c.p.at);
    OldTopAt(s, raw, c);
    BlockSize(s.block);
    hide Lies, Word32, Sizes, ReadGeneric, ReadSpecific, ReadCountersSampleV24, E.PutOldCounters, E.PutValues;
    FixedSize(fs, s.values);
    InBuffer(E.PutValues(fs, s.values), raw, c.p.at + 16);
    BlocksAt(s.block, raw, OldTopAfter(s, c));
    if s.block == 7 {
      VlanBlockFirst(s.values, raw, c.p.at + 16);
    }
  }
}
