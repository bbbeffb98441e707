/** Decoding the counter samples that an agent wrote: every record of every tag is read to
    its end, and every sample returns right behind its last record. */
module CounterTrip {
  import opened Xdr
  import opened SampleState
  import opened PerEntry
  import opened ByteFields
  import opened EntryTrip
  import opened CounterRecords
  import opened CounterSamples
  import E = CounterEncoding

  // Structures.

  function Size(f: E.Field): nat {
    match f
    case U16s(n) => 2 * n
    case U32s(n) => 4 * n
    case U64s(n) => 8 * n
    case Octets(n) => 4 * Quads(n)
    case Text => 0
  }

  function Sizes(fs: seq<E.Field>): nat {
    if fs == [] then 0 else Size(fs[0]) + Sizes(fs[1..])
  }

  predicate Fixed(fs: seq<E.Field>) {
    forall f :: f in fs ==> !f.Text?
  }

  lemma {:induction false} FixedSize(fs: seq<E.Field>, vs: seq<E.Value>)
    requires E.AllMatch(fs, vs) && Fixed(fs)
    ensures |E.PutValues(fs, vs)| == Sizes(fs)
  {
    if fs == [] {
    } else {
      FixedSize(fs[1..], vs[1..]);
    }
  }

  lemma SumOf(fs: seq<E.Field>)
    ensures |fs| == 1 ==> Sizes(fs) == Size(fs[0])
    ensures |fs| == 2 ==> Sizes(fs) == Size(fs[0]) + Size(fs[1])
    ensures |fs| == 3 ==> Sizes(fs) == Size(fs[0]) + Size(fs[1]) + Size(fs[2])
    ensures |fs| >= 4 ==> Sizes(fs) == Size(fs[0]) + Size(fs[1]) + Size(fs[2]) + Size(fs[3]) + Sizes(fs[4..])
  {
    if |fs| >= 4 {
      assert fs[1..][1..][1..][1..] == fs[4..];
      assert Sizes(fs[1..][1..]) == Size(fs[2]) + (Size(fs[3]) + Sizes(fs[4..]));
    } else if |fs| == 3 {
      assert Sizes(fs[1..][1..]) == Size(fs[2]);
    }
  }

  /** The tags whose structures have texts, which are read one by one. */
  predicate HasTexts(tag: u32) {
    tag == 2000 || tag == 2105 || tag == 2202
  }

  lemma AllFixed(tag: u32, groups: nat)
    requires E.Format(tag, groups) != [] && !HasTexts(tag)
    ensures Fixed(E.Format(tag, groups))
  {
  }

  lemma SumOfAll(fs: seq<E.Field>)
    requires 4 <= |fs| <= 8
    ensures |fs| == 4 ==> Sizes(fs[4..]) == 0
    ensures |fs| == 5 ==> Sizes(fs[4..]) == Size(fs[4])
    ensures |fs| == 6 ==> Sizes(fs[4..]) == Size(fs[4]) + Size(fs[5])
    ensures |fs| == 8 ==> Sizes(fs[4..]) == Size(fs[4]) + Size(fs[5]) + Size(fs[6]) + Size(fs[7])
  {
    hide Size;
    SumOf(fs[4..]);
    if |fs| == 8 {
      assert Sizes(fs[4..][4..]) == 0;
    }
  }

  lemma FormatSum(fs: seq<E.Field>)
    requires |fs| <= 6 || |fs| == 8
    ensures |fs| == 1 ==> Sizes(fs) == Size(fs[0])
    ensures |fs| == 2 ==> Sizes(fs) == Size(fs[0]) + Size(fs[1])
    ensures |fs| == 3 ==> Sizes(fs) == Size(fs[0]) + Size(fs[1]) + Size(fs[2])
    ensures |fs| >= 4 ==>
              Sizes(fs) == Size(fs[0]) + Size(fs[1]) + Size(fs[2]) + Size(fs[3])
                           + (if |fs| == 4 then 0 else Size(fs[4])) + (if |fs| <= 5 then 0 else Size(fs[5]))
                           + (if |fs| <= 6 then 0 else Size(fs[6])) + (if |fs| <= 7 then 0 else Size(fs[7]))
  {
    hide Size, Sizes;
    SumOf(fs);
    if |fs| >= 4 {
      SumOfAll(fs);
    }
  }

  // How many bytes a structure without texts has.

  lemma InterfaceSizes(tag: u32, groups: nat, len: u32)
    requires E.Format(tag, groups) != [] && tag < 2000
    ensures LayoutOf(tag, len) == if tag == 5 then VlanCounters else Plain(Sizes(E.Format(tag, groups)))
    ensures tag == 5 ==> Sizes(E.Format(tag, groups)) == 28
  {
    hide Sizes;
    FormatSum(E.Format(tag, groups));
  }

  lemma HostSizes(tag: u32, groups: nat, len: u32)
    requires E.Format(tag, groups) != [] && !HasTexts(tag) && 2000 <= tag < 2106
    ensures LayoutOf(tag, len) == Plain(Sizes(E.Format(tag, groups)))
  {
    hide Sizes;
    FormatSum(E.Format(tag, groups));
  }

  lemma JmxSizes(groups: nat, len: u32)
    requires len == Sizes(E.Format(2106, groups))
    ensures LayoutOf(2106, len) == Plain(Sizes(E.Format(2106, groups)))
  {
    hide Sizes;
    FormatSum(E.Format(2106, groups));
  }

  lemma ApplicationSizes(tag: u32, groups: nat, len: u32)
    requires E.Format(tag, groups) != [] && !HasTexts(tag) && 2106 < tag < 3000
    ensures LayoutOf(tag, len) == Plain(Sizes(E.Format(tag, groups)))
  {
    hide Sizes;
    FormatSum(E.Format(tag, groups));
  }

  lemma RatesSize(n: nat)
    ensures Sizes(E.Rates(n)) == 8 + 20 * n
  {
    SumOf(E.Rates(n));
  }

  lemma {:induction false} SizesAdd(a: seq<E.Field>, b: seq<E.Field>)
    ensures Sizes(a + b) == Sizes(a) + Sizes(b)
  {
    if a == [] {
      assert a + b == b;
    } else {
      assert (a + b)[1..] == a[1..] + b;
      SizesAdd(a[1..], b);
    }
  }

  lemma AllRatesSize()
    ensures Sizes(E.Rates(13) + E.Rates(5) + E.Rates(4) + E.Rates(5)) == 572
  {
    hide Sizes, E.Rates;
    RatesSize(13);
    RatesSize(5);
    RatesSize(4);
    SizesAdd(E.Rates(13) + E.Rates(5) + E.Rates(4), E.Rates(5));
    SizesAdd(E.Rates(13) + E.Rates(5), E.Rates(4));
    SizesAdd(E.Rates(13), E.Rates(5));
  }

  lemma EnterpriseSizes(tag: u32, groups: nat, len: u32)
    requires E.Format(tag, groups) != [] && 3000 <= tag
    ensures LayoutOf(tag, len) == Plain(Sizes(E.Format(tag, groups)))
  {
    hide Sizes, E.Rates;
    RatesSize(13);
    RatesSize(5);
    RatesSize(4);
    AllRatesSize();
    FormatSum([E.U64s(14), E.U16s(4), E.U32s(10)]);
    FormatSum([E.U32s(15), E.U16s(4)]);
    FormatSum([E.U32s(4), E.U64s(2), E.U32s(4)]);
  }

  lemma StructureSize(tag: u32, groups: nat, len: u32)
    requires E.Format(tag, groups) != [] && !HasTexts(tag)
    requires tag == 2106 ==> len == Sizes(E.Format(tag, groups))
    ensures LayoutOf(tag, len) == if tag == 5 then VlanCounters else Plain(Sizes(E.Format(tag, groups)))
    ensures tag == 5 ==> Sizes(E.Format(tag, groups)) == 28
  {
    hide Sizes, LayoutOf, E.Format;
    if tag < 2000 {
      InterfaceSizes(tag, groups, len);
    } else if tag < 2106 {
      HostSizes(tag, groups, len);
    } else if tag == 2106 {
      JmxSizes(groups, len);
    } else if tag < 3000 {
      ApplicationSizes(tag, groups, len);
    } else {
      EnterpriseSizes(tag, groups, len);
    }
  }

  // Texts.

  lemma TextAt(text: seq<byte>, raw: seq<byte>, p: Pos)
    requires |text| < 0xFFFF_0000 && Lies(E.PutText(text), raw, p.at)
    ensures PassString(raw, p) == Reach(Fine, Pos(p.at + |E.PutText(text)|, p.work))
  {
    hide Lies, Split, Word32, Quads, E.Padded;
    InBuffer(E.PutText(text), raw, p.at);
    LiesParts(Split(|text|), E.Padded(text), raw, p.at);
    WordLies(|text|, raw, p.at);
  }

  lemma FirstValue(fs: seq<E.Field>, vs: seq<E.Value>, raw: seq<byte>, at: nat)
    requires fs != [] && E.AllMatch(fs, vs) && Lies(E.PutValues(fs, vs), raw, at)
    ensures var n := |E.PutValue(fs[0], vs[0])|;
            && Lies(E.PutValue(fs[0], vs[0]), raw, at) && Lies(E.PutValues(fs[1..], vs[1..]), raw, at + n)
            && |E.PutValues(fs, vs)| == n + |E.PutValues(fs[1..], vs[1..])|
            && at + |E.PutValues(fs, vs)| <= |raw|
  {
    hide E.PutValue, E.Matches;
    InBuffer(E.PutValues(fs, vs), raw, at);
    hide Lies;
    LiesParts(E.PutValue(fs[0], vs[0]), E.PutValues(fs[1..], vs[1..]), raw, at);
  }

  /** The place behind a value at the front of others. */
  function Behind(fs: seq<E.Field>, vs: seq<E.Value>, p: Pos): (q: Pos)
    requires fs != [] && E.AllMatch(fs, vs)
    ensures q.work == p.work
  {
    Pos(p.at + |E.PutValue(fs[0], vs[0])|, p.work)
  }

  /** A text at the front of other fields. */
  lemma TextFirst(fs: seq<E.Field>, vs: seq<E.Value>, raw: seq<byte>, p: Pos)
    requires fs != [] && fs[0].Text? && E.AllMatch(fs, vs) && Lies(E.PutValues(fs, vs), raw, p.at)
    ensures PassString(raw, p) == Reach(Fine, Behind(fs, vs, p))
    ensures Lies(E.PutValues(fs[1..], vs[1..]), raw, Behind(fs, vs, p).at)
    ensures p.at + |E.PutValues(fs, vs)| == Behind(fs, vs, p).at + |E.PutValues(fs[1..], vs[1..])|
  {
    hide PassString, Lies, E.PutText, E.PutValues;
    FirstValue(fs, vs, raw, p.at);
    TextAt(vs[0].run, raw, p);
  }

  /** Fields without texts are passed over as so many bytes. */
  lemma FixedAt(fs: seq<E.Field>, vs: seq<E.Value>, raw: seq<byte>, p: Pos)
    requires E.AllMatch(fs, vs) && Fixed(fs) && Lies(E.PutValues(fs, vs), raw, p.at)
    ensures Pass(Sizes(fs), raw, p) == Reach(Fine, Pos(p.at + |E.PutValues(fs, vs)|, p.work))
  {
    hide E.PutValues, Sizes, Lies;
    InBuffer(E.PutValues(fs, vs), raw, p.at);
    FixedSize(fs, vs);
  }

  lemma NoValues(vs: seq<E.Value>)
    requires E.AllMatch([], vs)
    ensures E.PutValues([], vs) == []
  {
  }

  /** A field of another kind at the front of other fields. */
  lemma FixedFirst(fs: seq<E.Field>, vs: seq<E.Value>, raw: seq<byte>, p: Pos)
    requires fs != [] && !fs[0].Text? && E.AllMatch(fs, vs) && Lies(E.PutValues(fs, vs), raw, p.at)
    ensures Pass(Size(fs[0]), raw, p) == Reach(Fine, Behind(fs, vs, p))
    ensures Lies(E.PutValues(fs[1..], vs[1..]), raw, Behind(fs, vs, p).at)
    ensures p.at + |E.PutValues(fs, vs)| == Behind(fs, vs, p).at + |E.PutValues(fs[1..], vs[1..])|
  {
    hide Lies, E.PutValues;
    FirstValue(fs, vs, raw, p.at);
    assert |E.PutValue(fs[0], vs[0])| == Size(fs[0]);
    InBuffer(E.PutValues(fs[1..], vs[1..]), raw, Behind(fs, vs, p).at);
  }

  lemma HostIdAt(fs: seq<E.Field>, vs: seq<E.Value>, raw: seq<byte>, p: Pos)
    requires |fs| == 4 && fs[0].Text? && fs[1] == E.Octets(16) && fs[2] == E.U32s(2) && fs[3].Text?
    requires E.AllMatch(fs, vs) && Lies(E.PutValues(fs, vs), raw, p.at)
    ensures ReadHostId(raw, p) == Reach(Fine, Pos(p.at + |E.PutValues(fs, vs)|, p.work))
  {
    assert Size(E.Octets(16)) == 16 && Size(E.U32s(2)) == 8;
    hide PassString, Pass, Lies, Size, E.PutValues, E.PutValue, E.Matches, Behind;
    var fs1, vs1 := fs[1..], vs[1..];
    var fs2, vs2 := fs1[1..], vs1[1..];
    var fs3, vs3 := fs2[1..], vs2[1..];
    TextFirst(fs, vs, raw, p);
    var q := Behind(fs, vs, p);
    FixedFirst(fs1, vs1, raw, q);
    var z := Behind(fs1, vs1, q);
    FixedFirst(fs2, vs2, raw, z);
    TextFirst(fs3, vs3, raw, Behind(fs2, vs2, z));
    NoValues(vs3[1..]);
  }

  lemma JvmAt(fs: seq<E.Field>, vs: seq<E.Value>, raw: seq<byte>, p: Pos)
    requires fs == [E.Text, E.Text, E.Text] && E.AllMatch(fs, vs) && Lies(E.PutValues(fs, vs), raw, p.at)
    ensures ReadJvm(raw, p) == Reach(Fine, Pos(p.at + |E.PutValues(fs, vs)|, p.work))
  {
    hide PassString, Lies, E.PutValues, Behind;
    TextFirst(fs, vs, raw, p);
    var q := Behind(fs, vs, p);
    TextFirst(fs[1..], vs[1..], raw, q);
    assert fs[1..][1..] == fs[2..] && vs[1..][1..] == vs[2..];
    TextFirst(fs[2..], vs[2..], raw, Behind(fs[1..], vs[1..], q));
    NoValues(vs[2..][1..]);
  }

  lemma AppAt(fs: seq<E.Field>, vs: seq<E.Value>, raw: seq<byte>, p: Pos)
    requires fs == [E.Text, E.U32s(11)] && E.AllMatch(fs, vs) && Lies(E.PutValues(fs, vs), raw, p.at)
    ensures ReadApp(raw, p) == Reach(Fine, Pos(p.at + |E.PutValues(fs, vs)|, p.work))
  {
    hide PassString, Pass, Lies, E.PutValues, E.PutValue, E.Matches, Behind, Sizes;
    TextFirst(fs, vs, raw, p);
    FixedAt(fs[1..], vs[1..], raw, Behind(fs, vs, p));
    FormatSum(fs[1..]);
  }

  /** Every plain structure is read to its end. */
  lemma StructureAt(tag: u32, vs: seq<E.Value>, raw: seq<byte>, p: Pos)
    requires E.Format(tag, |vs|) != [] && E.AllMatch(E.Format(tag, |vs|), vs)
    requires Lies(E.PutValues(E.Format(tag, |vs|), vs), raw, p.at)
    requires |E.PutValues(E.Format(tag, |vs|), vs)| < 0x1_0000_0000
    ensures ReadCounters(tag, |E.PutValues(E.Format(tag, |vs|), vs)|, raw, p)
         == Reach(Fine, Pos(p.at + |E.PutValues(E.Format(tag, |vs|), vs)|, p.work))
  {
    hide Lies, E.PutValues, E.Format, E.AllMatch, Sizes, Fixed, Pass, ReadHostId, ReadJvm, ReadApp, LayoutOf;
    if HasTexts(tag) {
      TextLayouts(|vs|);
      if tag == 2000 {
        HostIdAt(E.Format(tag, |vs|), vs, raw, p);
      } else if tag == 2105 {
        JvmAt(E.Format(tag, |vs|), vs, raw, p);
      } else {
        AppAt(E.Format(tag, |vs|), vs, raw, p);
      }
    } else {
      AllFixed(tag, |vs|);
      FixedSize(E.Format(tag, |vs|), vs);
      StructureSize(tag, |vs|, |E.PutValues(E.Format(tag, |vs|), vs)|);
      FixedAt(E.Format(tag, |vs|), vs, raw, p);
    }
  }

  lemma TextLayouts(groups: nat)
    ensures E.Format(2000, groups) == [E.Text, E.Octets(16), E.U32s(2), E.Text]
    ensures E.Format(2105, groups) == [E.Text, E.Text, E.Text]
    ensures E.Format(2202, groups) == [E.Text, E.U32s(11)]
    ensures forall len: u32 {:trigger LayoutOf(2000, len)} :: LayoutOf(2000, len) == HostId
    ensures forall len: u32 {:trigger LayoutOf(2105, len)} :: LayoutOf(2105, len) == Jvm
    ensures forall len: u32 {:trigger LayoutOf(2202, len)} :: LayoutOf(2202, len) == App
  {
  }

  // Adaptors.

  lemma WordTaken(w: u32, raw: seq<byte>, p: Pos)
    requires Lies(Split(w), raw, p.at)
    ensures Take(raw, p) == Next(w, Pos(p.at + 4, p.work))
  {
    WordLies(w, raw, p.at);
  }

  lemma MacSize(mac: seq<byte>)
    requires |mac| == 6
    ensures |E.Padded(mac)| == 8
  {
  }

  lemma {:induction false} MacsAt(macs: seq<seq<byte>>, raw: seq<byte>, p: Pos)
    requires (forall m :: m in macs ==> |m| == 6) && Lies(E.PutMacs(macs), raw, p.at)
    ensures ReadMacs(|macs|, raw, p) == Reach(Fine, Pos(p.at + |E.PutMacs(macs)|, p.work + |macs|))
  {
    hide Lies, E.Padded;
    if macs == [] {
    } else {
      MacSize(macs[0]);
      LiesParts(E.Padded(macs[0]), E.PutMacs(macs[1..]), raw, p.at);
      InBuffer(E.Padded(macs[0]), raw, p.at);
      assert forall m :: m in macs[1..] ==> m in macs;
      MacsAt(macs[1..], raw, Pos(p.at + 8, p.work + 1));
    }
  }

  lemma AdaptorAt(a: E.Adaptor, raw: seq<byte>, p: Pos)
    requires E.AdaptorOk(a) && Lies(E.PutAdaptor(a), raw, p.at)
    ensures ReadAdaptor(raw, p) == Reach(Fine, Pos(p.at + |E.PutAdaptor(a)|, p.work + |a.macs|))
  {
    hide Lies, Split, Take, E.PutMacs, ReadMacs;
    LiesParts(Split(a.ifIndex), Split(|a.macs|) + E.PutMacs(a.macs), raw, p.at);
    LiesParts(Split(|a.macs|), E.PutMacs(a.macs), raw, p.at + 4);
    WordTaken(a.ifIndex, raw, p);
    WordTaken(|a.macs|, raw, Pos(p.at + 4, p.work));
    MacsAt(a.macs, raw, Pos(p.at + 8, p.work));
  }

  lemma {:induction false} AdaptorsAt(adaptors: seq<E.Adaptor>, raw: seq<byte>, p: Pos)
    requires E.AdaptorsOk(adaptors) && Lies(E.PutAdaptors(adaptors), raw, p.at)
    ensures ReadAdaptors(|adaptors|, raw, p)
         == Reach(Fine, Pos(p.at + |E.PutAdaptors(adaptors)|, p.work + E.AdaptorsWork(adaptors)))
  {
    hide Lies, ReadAdaptor, E.PutAdaptor, E.AdaptorOk;
    if adaptors == [] {
    } else {
      assert adaptors[0] in adaptors && forall a :: a in adaptors[1..] ==> a in adaptors;
      LiesParts(E.PutAdaptor(adaptors[0]), E.PutAdaptors(adaptors[1..]), raw, p.at);
      AdaptorAt(adaptors[0], raw, p);
      var n := |E.PutAdaptor(adaptors[0])|;
      AdaptorsAt(adaptors[1..], raw, Pos(p.at + n, p.work + |adaptors[0].macs| + 1));
    }
  }

  lemma AllAdaptorsAt(r: E.CounterRecord, raw: seq<byte>, p: Pos)
    requires r.Adaptors? && E.RecordOk(r) && Lies(E.PutBody(r), raw, p.at)
    ensures ReadAllAdaptors(raw, p) == Reach(Fine, Pos(p.at + |E.PutBody(r)|, p.work + E.RecordWork(r)))
  {
    hide Lies, Split, Take, ReadAdaptors, E.PutAdaptors, E.AdaptorsWork, E.AdaptorsOk;
    LiesParts(Split(|r.adaptors|), E.PutAdaptors(r.adaptors), raw, p.at);
    WordTaken(|r.adaptors|, raw, p);
    AdaptorsAt(r.adaptors, raw, Pos(p.at + 4, p.work));
  }

  // The packed record.

  lemma UuidEnds(uuid: seq<byte>, raw: seq<byte>, at: nat)
    requires E.UuidOk(uuid) && Lies(uuid, raw, at)
    ensures ZeroFrom(raw, at) < at + 37
    ensures ZeroFrom(raw, at) == at + 36 <==> E.WholeUuid(uuid)
  {
    var i :| 0 <= i < 37 && uuid[i] == 0;
    assert forall j :: 0 <= j < 37 ==> uuid[j] == raw[at + j];
    assert raw[at + i] == 0;
    var z := ZeroFrom(raw, at);
    assert z < at + 37;
    assert uuid[z - at] == 0;
    assert forall j :: 0 <= j < z - at ==> uuid[j] == raw[at + j];
  }

  lemma WholeQuads(n: nat)
    ensures Quads(4 * n) == n
  {
  }

  lemma Twelves(n: nat)
    ensures 12 * n / 12 == n
  {
  }

  lemma PairsLength(n: nat)
    requires 45 + 12 * n < 0x1_0000_0000
    ensures PairBytes(45 + 12 * n) == 12 * n && 12 * n / 12 == n && 4 * Quads(12 * n) == 12 * n
  {
    hide Quads;
    Twelves(n);
    WholeQuads(3 * n);
    assert 4 * (3 * n) == 12 * n;
  }

  lemma PackedAt(r: E.CounterRecord, raw: seq<byte>, p: Pos)
    requires r.Packed? && E.RecordFits(r) && Lies(E.PutBody(r), raw, p.at)
    ensures |E.PutBody(r)| == 45 + 12 * |r.pairs|
    ensures ReadCustom(|E.PutBody(r)|, raw, p) == Reach(Fine, Pos(p.at + |E.PutBody(r)|, p.work + |r.pairs|))
  {
    PackedLen(r);
    InBuffer(E.PutBody(r), raw, p.at);
    hide *;
    LiesParts(r.uuid, Split(r.schema) + Split(r.vnp) + E.PutPairs(r.pairs), raw, p.at);
    UuidEnds(r.uuid, raw, p.at);
    PackedSteps(|r.pairs|, raw, p);
  }

  lemma PackedSteps(n: nat, raw: seq<byte>, p: Pos)
    requires 45 + 12 * n < 0x1_0000_0000 && p.at + 45 + 12 * n <= |raw| && ZeroFrom(raw, p.at) < p.at + 37
    requires ZeroFrom(raw, p.at) == p.at + 36 || n == 0
    ensures ReadCustom(45 + 12 * n, raw, p) == Reach(Fine, Pos(p.at + 45 + 12 * n, p.work + n))
  {
    hide ZeroFrom, PairBytes, Quads, Onward, Seen;
    PairsLength(n);
  }

  lemma PackedLen(r: E.CounterRecord)
    requires r.Packed? && E.RecordFits(r)
    ensures |E.PutBody(r)| == 45 + 12 * |r.pairs| && |r.uuid| == 37 && 45 + 12 * |r.pairs| < 0x1_0000_0000
    ensures E.UuidOk(r.uuid) && (E.WholeUuid(r.uuid) || |r.pairs| == 0)
    ensures E.PutBody(r) == r.uuid + (Split(r.schema) + Split(r.vnp) + E.PutPairs(r.pairs))
  {
    hide Split, E.PutPairs, E.WholeUuid, E.UuidOk;
    UuidLen(r.uuid);
    Grouped(r.uuid, Split(r.schema), Split(r.vnp), E.PutPairs(r.pairs));
  }

  lemma UuidLen(uuid: seq<byte>)
    requires E.UuidOk(uuid)
    ensures |uuid| == 37
  {
  }

  lemma Grouped(a: seq<byte>, b: seq<byte>, c: seq<byte>, d: seq<byte>)
    ensures a + b + c + d == a + (b + c + d)
  {
  }

  // The A10 records.

  lemma FewerThan(n: nat, k: nat)
    ensures Min(n, k) <= n && 8 * Min(n, k) <= 8 * n && 4 * Min(n, k) <= 4 * n
  {
  }

  lemma Table64At(counters: nat, n: nat, raw: seq<byte>, p: Pos)
    requires 0 < n < 8192 && p.at + 8 * n <= |raw|
    ensures ReadTable64(counters, 8 * n, raw, p) == Reach(Fine, Pos(p.at + 8 * n, p.work))
  {
    hide Arrived, Repeat;
    Eights(n);
    FewerThan(n, counters);
  }

  lemma Table32At(counters: nat, n: nat, raw: seq<byte>, p: Pos)
    requires 0 < n < 16384 && p.at + 4 * n <= |raw|
    ensures ReadTable32(counters, 4 * n, raw, p) == Reach(Fine, Pos(p.at + 4 * n, p.work))
  {
    hide Arrived32, Repeat;
    assert 4 * n / 4 == n && 4 * n % 4 == 0;
    FewerThan(n, counters);
  }

  lemma EntryRecordAt(e: EntryRecord, raw: seq<byte>, p: Pos)
    requires EntryOk(e) && Lies(PutEntry(e), raw, p.at)
    ensures |PutEntry(e)| < 0x1_0000_0000
    ensures ReadEntry(e.kind, |PutEntry(e)|, raw, p) == Reach(Fine, Pos(p.at + |PutEntry(e)|, p.work))
  {
    hide Lies, PutEntry, EntryAt, EntryOk, Filled;
    SameCounters(e.kind);
    EntryLies(e, raw, p.at, Repeat<u64>(0, Counters(e.kind)));
  }

  lemma SameCounters(k: Kind)
    ensures Counters(k) == FieldCount(k)
  {
  }

  lemma CommonRead(c: E.Common, tail: seq<byte>, raw: seq<byte>, p: Pos)
    requires E.CommonOk(c) && Lies(E.PutHeader(c) + tail, raw, p.at)
    ensures CommonEnd(raw, p.at) == Fine && p.at + 48 + |tail| <= |raw| && Lies(tail, raw, p.at + 48)
  {
    InBuffer(E.PutHeader(c) + tail, raw, p.at);
    hide Lies, PutCommon, HeaderOk, HeaderAt, CommonEnd;
    LiesParts(E.PutHeader(c), tail, raw, p.at);
    HeaderLies(c.header, c.srcFiller, c.dstFiller, raw, p.at);
  }

  lemma EntryPortAt(r: E.CounterRecord, raw: seq<byte>, p: Pos)
    requires r.EntryPort? && E.RecordOk(r) && Lies(E.PutBody(r), raw, p.at)
    ensures ReadEntryPort(raw, p) == Reach(Fine, Pos(p.at + |E.PutBody(r)|, p.work))
  {
    hide Lies, Split, Bytes, E.PutHeader, E.CommonOk, CommonEnd;
    CommonRead(r.portOf, Split(r.port) + Split(r.appType) + Bytes(r.numbers), raw, p);
  }

  lemma StatAt(i: nat, room: nat, s: E.Stat, raw: seq<byte>, p: Pos)
    requires i < room && E.StatOk(s) && Lies(E.PutStat(s), raw, p.at)
    ensures ReadStat(i, room, raw, p) == Reach(Fine, Pos(p.at + |E.PutStat(s)|, p.work))
  {
    hide Lies, Split, Bytes, Take;
    InBuffer(E.PutStat(s), raw, p.at);
    LiesParts(Split(s.protocol), Split(s.state) + Bytes(s.numbers), raw, p.at);
    LiesParts(Split(s.state), Bytes(s.numbers), raw, p.at + 4);
    WordTaken(s.protocol, raw, p);
    WordTaken(s.state, raw, Pos(p.at + 4, p.work));
  }

  lemma {:induction false} StatsAt(i: nat, room: nat, stats: seq<E.Stat>, raw: seq<byte>, p: Pos)
    requires i + |stats| <= room && E.StatsOk(stats) && Lies(E.PutStats(stats), raw, p.at)
    ensures ReadStats(i, i + |stats|, room, raw, p)
         == Reach(Fine, Pos(p.at + |E.PutStats(stats)|, p.work + |stats|))
    decreases |stats|
  {
    hide Lies, ReadStat, E.PutStat, E.StatOk;
    if stats == [] {
    } else {
      assert stats[0] in stats && forall s :: s in stats[1..] ==> s in stats;
      LiesParts(E.PutStat(stats[0]), E.PutStats(stats[1..]), raw, p.at);
      StatAt(i, room, stats[0], raw, p);
      StatsAt(i + 1, room, stats[1..], raw, Pos(p.at + |E.PutStat(stats[0])|, p.work + 1));
    }
  }

  /** A counted list of statistics: its count, and the place behind them. */
  lemma CountedAt(room: nat, stats: seq<E.Stat>, raw: seq<byte>, p: Pos)
    requires |stats| <= room <= 4 && E.StatsOk(stats) && Lies(E.PutCounted(stats), raw, p.at)
    ensures Take(raw, p) == Next(|stats|, Pos(p.at + 4, p.work))
    ensures ReadStats(0, |stats|, room, raw, Pos(p.at + 4, p.work))
         == Reach(Fine, Pos(p.at + |E.PutCounted(stats)|, p.work + |stats|))
  {
    hide Lies, Split, Take, ReadStats, E.PutStats, E.StatsOk;
    LiesParts(Split(|stats|), E.PutStats(stats), raw, p.at);
    WordTaken(|stats|, raw, p);
    StatsAt(0, room, stats, raw, Pos(p.at + 4, p.work));
  }

  lemma ProtocolsFirst(n: u32, raw: seq<byte>, p: Pos)
    requires CommonEnd(raw, p.at) == Fine && p.at + 48 <= |raw|
    requires Take(raw, Pos(p.at + 48, p.work)) == Next(n, Pos(p.at + 52, p.work))
    ensures var r := ReadStats(0, n, 4, raw, Pos(p.at + 52, p.work));
            && (!r.sig.Fine? ==> ReadEntryStats(raw, p) == r)
            && (r.sig.Fine? && Take(raw, r.p).Next? ==>
                  ReadEntryStats(raw, p) == ReadStats(0, Take(raw, r.p).w, 3, raw, Take(raw, r.p).p))
  {
    hide Take, ReadStats, CommonEnd, Seen, Onward, Word32, Named;
  }

  lemma StatisticsLie(c: E.Common, protocols: seq<E.Stat>, applications: seq<E.Stat>, raw: seq<byte>, p: Pos)
    requires E.CommonOk(c) && |protocols| < 0x1_0000_0000 && |applications| < 0x1_0000_0000
    requires Lies(E.PutStatistics(c, protocols, applications), raw, p.at)
    ensures CommonEnd(raw, p.at) == Fine && p.at + 48 <= |raw|
    ensures Lies(E.PutCounted(protocols), raw, p.at + 48)
    ensures Lies(E.PutCounted(applications), raw, p.at + 48 + |E.PutCounted(protocols)|)
  {
    hide Lies, E.PutHeader, E.PutCounted, E.CommonOk, CommonEnd;
    var a, b := E.PutCounted(protocols), E.PutCounted(applications);
    CommonRead(c, a + b, raw, p);
    LiesParts(a, b, raw, p.at + 48);
  }

  lemma StatisticsOf(r: E.CounterRecord)
    requires r.EntryStats? && E.RecordOk(r)
    ensures E.CommonOk(r.statsOf) && E.StatsOk(r.protocols) && E.StatsOk(r.applications)
    ensures |r.protocols| <= 4 && |r.applications| <= 3
    ensures E.PutBody(r) == E.PutStatistics(r.statsOf, r.protocols, r.applications)
    ensures |E.PutBody(r)| == 48 + |E.PutCounted(r.protocols)| + |E.PutCounted(r.applications)|
  {
    hide E.PutHeader, E.PutCounted, E.StatsOk;
  }

  lemma EntryStatsAt(r: E.CounterRecord, raw: seq<byte>, p: Pos)
    requires r.EntryStats? && E.RecordOk(r) && Lies(E.PutBody(r), raw, p.at)
    ensures ReadEntryStats(raw, p)
         == Reach(Fine, Pos(p.at + |E.PutBody(r)|, p.work + |r.protocols| + |r.applications|))
  {
    hide *;
    StatisticsOf(r);
    StatisticsLie(r.statsOf, r.protocols, r.applications, raw, p);
    var a := |E.PutCounted(r.protocols)|;
    CountedAt(4, r.protocols, raw, Pos(p.at + 48, p.work));
    ProtocolsFirst(|r.protocols|, raw, p);
    CountedAt(3, r.applications, raw, Pos(p.at + 48 + a, p.work + |r.protocols|));
  }

  lemma EntryMapAt(r: E.CounterRecord, raw: seq<byte>, p: Pos)
    requires r.EntryMap? && E.RecordOk(r) && Lies(E.PutBody(r), raw, p.at)
    ensures ReadEntryMap(raw, p) == Reach(Fine, Pos(p.at + |E.PutBody(r)|, p.work))
  {
    hide Half;
    var bs := raw[p.at..p.at + |E.PutBody(r)|];
    assert bs[1] == r.portType && raw[p.at + 1] == bs[1];
  }

  // Which tag has which layout.

  lemma SpecialLayouts(len: u32)
    ensures LayoutOf(1, len) == LayoutOf(1001, len) == LayoutOf(E.A10_FORMATS + 3000, len) == Custom
    ensures LayoutOf(2001, len) == Layout.Adaptors
    ensures LayoutOf(E.A10_FORMATS + 8, len) == Layout.EntryPort
    ensures LayoutOf(E.A10_FORMATS + 2, len) == Layout.EntryStats
    ensures LayoutOf(E.A10_FORMATS + 60, len) == Layout.EntryMap
  {
  }

  lemma TableLayouts(format: nat, len: u32)
    requires format < 100
    ensures format in E.TABLES_64 ==> LayoutOf(E.A10_FORMATS + format, len).Table64?
    ensures format in E.TABLES_32 ==> LayoutOf(E.A10_FORMATS + format, len).Table32?
  {
  }

  lemma KindLayout(k: Kind, len: u32)
    ensures LayoutOf(E.A10_FORMATS + E.KindFormat(k), len) == PerKind(k)
  {
  }

  lemma NoLayout(tag: u32, len: u32)
    requires E.NoReader(tag)
    ensures LayoutOf(tag, len) == Unknown
  {
  }

  lemma SkipAt(body: seq<byte>, raw: seq<byte>, p: Pos)
    requires |body| < 0xFFFF_0000 && Lies(E.Padded(body), raw, p.at)
    ensures Pass(4 * Quads(|body|), raw, p) == Reach(Fine, Pos(p.at + |E.Padded(body)|, p.work))
  {
  }

  lemma FormatsSmall(format: nat)
    requires format in E.TABLES_64 || format in E.TABLES_32
    ensures format < 100
  {
  }

  lemma TableAt(r: E.CounterRecord, raw: seq<byte>, p: Pos)
    requires (r.Table64? || r.Table32?) && E.RecordOk(r) && Lies(E.PutBody(r), raw, p.at)
    ensures ReadCounters(E.Tag(r), |E.PutBody(r)|, raw, p) == Reach(Fine, Pos(p.at + |E.PutBody(r)|, p.work))
  {
    hide LayoutOf, ReadTable64, ReadTable32, Lies, Longs, Bytes;
    InBuffer(E.PutBody(r), raw, p.at);
    if r.Table64? {
      FormatsSmall(r.format64);
      TableLayouts(r.format64, |E.PutBody(r)|);
      Table64At(LayoutOf(E.Tag(r), |E.PutBody(r)|).counters, |r.wides|, raw, p);
    } else {
      FormatsSmall(r.format32);
      TableLayouts(r.format32, |E.PutBody(r)|);
      Table32At(LayoutOf(E.Tag(r), |E.PutBody(r)|).counters, |r.ints|, raw, p);
    }
  }

  lemma PackedTags(r: E.CounterRecord, len: u32)
    requires r.Packed? && E.RecordOk(r)
    ensures LayoutOf(E.Tag(r), len) == Custom
  {
    SpecialLayouts(len);
    hide LayoutOf, E.UuidOk, E.WholeUuid;
  }

  /** Every record of every tag is read to its end. */
  lemma RecordAt(r: E.CounterRecord, raw: seq<byte>, p: Pos)
    requires E.RecordFits(r) && Lies(E.PutBody(r), raw, p.at)
    ensures ReadCounters(E.Tag(r), E.Length(r), raw, p)
         == Reach(Fine, Pos(p.at + |E.PutBody(r)|, p.work + E.RecordWork(r)))
  {
    hide Lies, LayoutOf, Pass, ReadHostId, ReadAllAdaptors, ReadJvm, ReadApp, ReadCustom, ReadTable64, ReadTable32,
         ReadEntry, ReadEntryPort, ReadEntryStats, ReadEntryMap, E.Format, E.AllMatch, E.PutValues, E.UuidOk,
         E.WholeUuid, E.NoReader, PutEntry, E.Padded, EntryOk, E.PutPairs, E.AdaptorsWork, E.StatsOk, Quads, Longs,
         Bytes, E.PutHeader, E.PutCounted, Split, Half;
    SpecialLayouts(E.Length(r));
    match r
    case Structure(tag, values) => StructureAt(tag, values, raw, p);
    case Adaptors(_) => AllAdaptorsAt(r, raw, p);
    case Packed(_, _, _, _, _) =>
      PackedTags(r, E.Length(r));
      PackedAt(r, raw, p);
    case Table64(_, _) => TableAt(r, raw, p);
    case Table32(_, _) => TableAt(r, raw, p);
    case PerEntry(e) =>
      KindLayout(e.kind, E.Length(r));
      EntryRecordAt(e, raw, p);
    case EntryPort(_, _, _, _) => EntryPortAt(r, raw, p);
    case EntryStats(_, _, _) => EntryStatsAt(r, raw, p);
    case EntryMap(_, _, _, _) => EntryMapAt(r, raw, p);
    case Skip(tag, body) =>
      NoLayout(tag, |body|);
      SkipAt(body, raw, p);
  }

  // Records with their tags and lengths.

  function RecordFields(r: E.CounterRecord, f: Fields): Fields
    requires E.RecordOk(r)
  {
    if E.VlanOf(r) == [] then f else f.(num := f.num[InVlan := E.VlanOf(r)[0]])
  }

  function SkipLines(r: E.CounterRecord): seq<Event>
    requires E.RecordFits(r)
  {
    if r.Skip? then [Skipped(false, r.skippedTag, |r.body|)] else []
  }

  lemma VlanFirst(vs: seq<E.Value>, raw: seq<byte>, at: nat)
    requires E.AllMatch(E.Format(5, |vs|), vs) && Lies(E.PutValues(E.Format(5, |vs|), vs), raw, at)
    ensures at + 4 <= |raw| && Word32(raw, at) == vs[0].ints[0]
  {
    var fs := E.Format(5, |vs|);
    FirstValue(fs, vs, raw, at);
    var w := vs[0].ints[0];
    assert vs[0].ints == [w] && Bytes([w]) == Split(w) + Bytes([]);
    LiesParts(Split(w), Bytes([]), raw, at);
    WordLies(w, raw, at);
  }

  lemma VlanLayout(tag: u32, len: u32)
    ensures LayoutOf(tag, len).VlanCounters? <==> tag == 5
    ensures LayoutOf(tag, len).Unknown? ==> tag != 1 && tag != 1001 && tag != 2001
  {
  }

  lemma StructureKnown(tag: u32, groups: nat, len: u32)
    requires E.Format(tag, groups) != []
    ensures !LayoutOf(tag, len).Unknown?
  {
  }

  lemma KnownLayout(r: E.CounterRecord)
    requires E.RecordFits(r)
    ensures LayoutOf(E.Tag(r), E.Length(r)).Unknown? <==> r.Skip?
    ensures E.Tag(r) == 5 <==> r.Structure? && r.tag == 5
  {
    hide LayoutOf, E.Format, E.AllMatch, E.PutValues, E.UuidOk, E.WholeUuid, E.NoReader, PutEntry, EntryOk, E.StatsOk,
         E.PutBody, Sizes, Fixed;
    SpecialLayouts(E.Length(r));
    match r
    case Structure(tag, values) => StructureKnown(tag, |values|, E.Length(r));
    case Packed(_, _, _, _, _) => PackedTags(r, E.Length(r));
    case Table64(format, _) => FormatsSmall(format); TableLayouts(format, E.Length(r));
    case Table32(format, _) => FormatsSmall(format); TableLayouts(format, E.Length(r));
    case PerEntry(e) => KindLayout(e.kind, E.Length(r));
    case Skip(tag, _) => NoLayout(tag, E.Length(r)); VlanLayout(tag, E.Length(r));
    case _ =>
  }

  lemma MarksAt(r: E.CounterRecord, raw: seq<byte>, c: Cut)
    requires E.RecordFits(r) && Lies(E.PutBody(r), raw, c.p.at)
    ensures Marks(E.Tag(r), E.Length(r), raw, c)
         == Cut(c.p, RecordFields(r, c.f), c.path, c.log + SkipLines(r))
  {
    KnownLayout(r);
    VlanLayout(E.Tag(r), E.Length(r));
    assert c.log + [] == c.log;
    hide LayoutOf, Lies, Word32, E.Format, E.AllMatch, E.PutValues, E.RecordOk, E.PutBody;
    if E.Tag(r) == 5 {
      VlanRecord(r, raw, c.p.at);
    }
  }

  lemma VlanRecord(r: E.CounterRecord, raw: seq<byte>, at: nat)
    requires E.RecordFits(r) && Lies(E.PutBody(r), raw, at) && r.Structure? && r.tag == 5
    ensures at + 4 <= |raw| && E.VlanOf(r) == [Word32(raw, at)]
  {
    hide Lies, Word32, E.PutValues;
    VlanFirst(r.values, raw, at);
  }

  function RecordAfter(r: E.CounterRecord, c: Cut): Cut
    requires E.RecordFits(r)
  {
    Cut(Pos(c.p.at + |E.PutRecord(r)|, c.p.work + E.RecordWork(r) + 1), RecordFields(r, c.f), c.path,
        c.log + [BlockTag(E.Tag(r))] + SkipLines(r))
  }

  lemma RecordParts(r: E.CounterRecord, raw: seq<byte>, at: nat)
    requires E.RecordFits(r) && Lies(E.PutRecord(r), raw, at)
    ensures at + 8 <= |raw| && Word32(raw, at) == E.Tag(r) && Word32(raw, at + 4) == E.Length(r)
    ensures Lies(E.PutBody(r), raw, at + 8) && |E.PutRecord(r)| == 8 + |E.PutBody(r)|
  {
    hide Lies, Split, Word32, E.Tag, E.Length, E.PutBody, E.RecordOk;
    InBuffer(E.PutRecord(r), raw, at);
    E.Padding(r);
    LiesParts(Split(E.Tag(r)), Split(E.Length(r)) + E.PutBody(r), raw, at);
    LiesParts(Split(E.Length(r)), E.PutBody(r), raw, at + 4);
    WordLies(E.Tag(r), raw, at);
    WordLies(E.Length(r), raw, at + 4);
  }

  lemma ElementAt(r: E.CounterRecord, raw: seq<byte>, c: Cut)
    requires E.RecordFits(r) && Lies(E.PutRecord(r), raw, c.p.at)
    ensures ReadElement(raw, c) == Move(Fine, RecordAfter(r, c))
  {
    hide Lies, Word32, ReadCounters, Marks, RecordFields, SkipLines, E.Tag, E.Length, E.PutBody, E.PutRecord,
         E.RecordOk, E.RecordWork;
    RecordParts(r, raw, c.p.at);
    var d := Print(BlockTag(E.Tag(r)), c).(p := Pos(c.p.at + 8, c.p.work));
    RecordAt(r, raw, d.p);
    MarksAt(r, raw, d);
  }

  function RecordsAfter(rs: seq<E.CounterRecord>, c: Cut): Cut
    requires E.RecordsFit(rs)
  {
    Cut(Pos(c.p.at + |E.PutRecords(rs)|, c.p.work + E.RecordsWork(rs)), E.RecordsFields(rs, c.f), c.path,
        c.log + E.RecordsLines(rs))
  }

  lemma RecordsAfterStep(rs: seq<E.CounterRecord>, c: Cut)
    requires rs != [] && E.RecordsFit(rs)
    ensures E.RecordFits(rs[0]) && E.RecordsFit(rs[1..])
    ensures RecordsAfter(rs, c) == RecordsAfter(rs[1..], RecordAfter(rs[0], c))
  {
    hide E.RecordOk, E.PutBody, E.PutRecord, E.RecordWork, E.VlanOf, E.Tag;
    assert rs[0] in rs && forall r :: r in rs[1..] ==> r in rs;
    var lines := [BlockTag(E.Tag(rs[0]))];
    assert c.log + E.RecordsLines(rs) == c.log + lines + SkipLines(rs[0]) + E.RecordsLines(rs[1..]);
  }

  lemma NoRecordsAfter(c: Cut)
    ensures RecordsAfter([], c) == c
  {
    assert c.log + [] == c.log;
  }

  lemma {:induction false} RecordsAt(rs: seq<E.CounterRecord>, raw: seq<byte>, c: Cut)
    requires E.RecordsFit(rs) && Lies(E.PutRecords(rs), raw, c.p.at)
    ensures ReadElements(|rs|, raw, c) == Move(Fine, RecordsAfter(rs, c))
  {
    hide Lies, ReadElement, RecordAfter, RecordsAfter, E.PutRecord, E.RecordFits;
    if rs == [] {
      NoRecordsAfter(c);
    } else {
      RecordsAfterStep(rs, c);
      LiesParts(E.PutRecord(rs[0]), E.PutRecords(rs[1..]), raw, c.p.at);
      ElementAt(rs[0], raw, c);
      RecordPlace(rs[0], c);
      RecordsAt(rs[1..], raw, RecordAfter(rs[0], c));
    }
  }

  lemma RecordPlace(r: E.CounterRecord, c: Cut)
    requires E.RecordFits(r)
    ensures RecordAfter(r, c).p.at == c.p.at + |E.PutRecord(r)|
  {
  }

  // Samples.

  function SourceFields(s: E.CounterSample, f: Fields): Fields {
    f.(num := f.num[SamplesGenerated := s.sequence][DsClass := s.dsClass][DsIndex := s.dsIndex])
  }

  function TopAfter(s: E.CounterSample, c: Cut): Cut
    requires E.SampleOk(s)
  {
    Cut(Pos(c.p.at + 4 + |E.PutSource(s)|, c.p.work), SourceFields(s, c.f), c.path,
        c.log + [ShowNum(SamplesGenerated, s.sequence)] + [SourceId(s.dsClass, s.dsIndex)])
  }

  lemma PackedSource(dsClass: u32, dsIndex: u32)
    requires dsClass < 0x100 && dsIndex < 0x100_0000
    ensures dsClass * 0x100_0000 + dsIndex < 0x1_0000_0000
    ensures ClassOf(dsClass * 0x100_0000 + dsIndex) == dsClass && IndexOf(dsClass * 0x100_0000 + dsIndex) == dsIndex
  {
  }

  lemma PackedSourceAt(dsClass: u32, dsIndex: u32, raw: seq<byte>, c: Cut)
    requires dsClass < 0x100 && dsIndex < 0x100_0000
    requires Lies(Split(dsClass * 0x100_0000 + dsIndex), raw, c.p.at)
    ensures ReadSource(false, raw, c)
         == Move(Fine, Keep(DsIndex, dsIndex, Keep(DsClass, dsClass, c)).(p := Pos(c.p.at + 4, c.p.work)))
  {
    hide Lies, Split, Word32, ClassOf, IndexOf;
    PackedSource(dsClass, dsIndex);
    var id := dsClass * 0x100_0000 + dsIndex;
    InBuffer(Split(id), raw, c.p.at);
    WordLies(id, raw, c.p.at);
    PackedTaken(id, raw, c);
  }

  lemma PackedTaken(id: u32, raw: seq<byte>, c: Cut)
    requires c.p.at + 4 <= |raw| && Word32(raw, c.p.at) == id
    ensures ReadSource(false, raw, c)
         == Move(Fine, Keep(DsIndex, IndexOf(id), Keep(DsClass, ClassOf(id), c)).(p := Pos(c.p.at + 4, c.p.work)))
  {
    hide Word32, ClassOf, IndexOf;
  }

  lemma ExpandedSourceAt(dsClass: u32, dsIndex: u32, raw: seq<byte>, c: Cut)
    requires Lies(Split(dsClass) + Split(dsIndex), raw, c.p.at)
    ensures ReadSource(true, raw, c)
         == Move(Fine, Keep(DsIndex, dsIndex, Keep(DsClass, dsClass, c)).(p := Pos(c.p.at + 8, c.p.work)))
  {
    InBuffer(Split(dsClass) + Split(dsIndex), raw, c.p.at);
    hide Lies, Split, Word32;
    LiesParts(Split(dsClass), Split(dsIndex), raw, c.p.at);
    WordLies(dsClass, raw, c.p.at);
    WordLies(dsIndex, raw, c.p.at + 4);
  }

  lemma SourceAt(s: E.CounterSample, raw: seq<byte>, c: Cut)
    requires E.SampleOk(s) && Lies(E.PutSource(s), raw, c.p.at)
    ensures ReadSource(s.expanded, raw, c)
         == Move(Fine, Keep(DsIndex, s.dsIndex, Keep(DsClass, s.dsClass, c))
                       .(p := Pos(c.p.at + |E.PutSource(s)|, c.p.work)))
  {
    hide Lies, Split, ReadSource, Keep, E.RecordsFit;
    if s.expanded {
      ExpandedSourceAt(s.dsClass, s.dsIndex, raw, c);
    } else {
      PackedSourceAt(s.dsClass, s.dsIndex, raw, c);
    }
  }

  lemma SequenceAt(w: u32, raw: seq<byte>, c: Cut)
    requires Lies(Split(w), raw, c.p.at)
    ensures ReadShown(SamplesGenerated, raw, c)
         == Move(Fine, Print(ShowNum(SamplesGenerated, w),
                             Keep(SamplesGenerated, w, c).(p := Pos(c.p.at + 4, c.p.work))))
  {
    InBuffer(Split(w), raw, c.p.at);
    WordLies(w, raw, c.p.at);
    hide Lies, Split, Word32;
  }

  lemma TopSteps(expanded: bool, raw: seq<byte>, c: Cut, d: Cut, e: Cut)
    requires ReadShown(SamplesGenerated, raw, c) == Move(Fine, d) && ReadSource(expanded, raw, d) == Move(Fine, e)
    ensures ReadTop(expanded, raw, c)
         == Move(Fine, Print(SourceId(Num(e.f, DsClass), Num(e.f, DsIndex)), e))
  {
    hide ReadShown, ReadSource;
  }

  lemma TopShape(s: E.CounterSample, c: Cut)
    requires E.SampleOk(s)
    ensures var d := Print(ShowNum(SamplesGenerated, s.sequence),
                           Keep(SamplesGenerated, s.sequence, c).(p := Pos(c.p.at + 4, c.p.work)));
            var e := Keep(DsIndex, s.dsIndex, Keep(DsClass, s.dsClass, d))
                     .(p := Pos(d.p.at + |E.PutSource(s)|, d.p.work));
            && d.p == Pos(c.p.at + 4, c.p.work)
            && Print(SourceId(Num(e.f, DsClass), Num(e.f, DsIndex)), e) == TopAfter(s, c)
  {
    hide E.PutSource, E.RecordsFit;
  }

  lemma TopAt(s: E.CounterSample, raw: seq<byte>, c: Cut)
    requires E.SampleOk(s) && Lies(Split(s.sequence) + E.PutSource(s), raw, c.p.at)
    ensures ReadTop(s.expanded, raw, c) == Move(Fine, TopAfter(s, c))
  {
    hide *;
    LiesParts(Split(s.sequence), E.PutSource(s), raw, c.p.at);
    SequenceAt(s.sequence, raw, c);
    TopShape(s, c);
    var d := ReadShown(SamplesGenerated, raw, c).c;
    SourceAt(s, raw, d);
    TopSteps(s.expanded, raw, c, d, ReadSource(s.expanded, raw, d).c);
  }

  lemma CountAt(s: E.CounterSample, raw: seq<byte>, c: Cut)
    requires E.SampleOk(s) && Lies(Split(|s.records|) + E.PutRecords(s.records), raw, c.p.at)
    ensures ReadRecords(raw, c)
         == Move(Fine, RecordsAfter(s.records, c.(p := Pos(c.p.at + 4, c.p.work))))
  {
    InBuffer(Split(|s.records|) + E.PutRecords(s.records), raw, c.p.at);
    hide Lies, Split, Word32, ReadElements, RecordsAfter, E.PutRecords, E.RecordsFit;
    LiesParts(Split(|s.records|), E.PutRecords(s.records), raw, c.p.at);
    WordLies(|s.records|, raw, c.p.at);
    RecordsAt(s.records, raw, c.(p := Pos(c.p.at + 4, c.p.work)));
  }

  /** The length of an encoded sample passes the check behind it. */
  lemma LengthPasses(start: nat, len: u32, c: Cut)
    requires c.p.at == start + len
    ensures CheckLength(start, len, c) == Move(Fine, c)
  {
  }

  predicate SampleFits(s: E.CounterSample) {
    E.SampleOk(s) && |E.PutSampleBody(s)| < 0x1_0000_0000
  }

  function SampleAfter(s: E.CounterSample, c: Cut): Cut
    requires SampleFits(s)
  {
    Cut(Pos(c.p.at + |E.PutSample(s)|, c.p.work + E.RecordsWork(s.records)), E.SampleFields(s, c.f), c.path,
        c.log + E.SampleLines(s))
  }

  lemma BodyIs(s: E.CounterSample)
    requires SampleFits(s)
    ensures E.PutSampleBody(s)
         == Split(s.sequence) + (E.PutSource(s) + (Split(|s.records|) + E.PutRecords(s.records)))
    ensures E.PutSample(s) == Split(|E.PutSampleBody(s)|) + E.PutSampleBody(s)
  {
    hide Split, E.PutSource, E.PutRecords, E.RecordsFit;
  }

  lemma TwoParts(a: seq<byte>, b: seq<byte>, c: seq<byte>, d: seq<byte>)
    ensures a + (b + (c + d)) == (a + b) + (c + d)
  {
  }

  lemma BodyOf(s: E.CounterSample)
    requires SampleFits(s)
    ensures |s.records| < 0x1_0000_0000
    ensures E.PutSampleBody(s)
         == (Split(s.sequence) + E.PutSource(s)) + (Split(|s.records|) + E.PutRecords(s.records))
    ensures |E.PutSample(s)| == 4 + |E.PutSampleBody(s)|
    ensures |E.PutSampleBody(s)| == 8 + |E.PutSource(s)| + |E.PutRecords(s.records)|
  {
    BodyIs(s);
    hide *;
    TwoParts(Split(s.sequence), E.PutSource(s), Split(|s.records|), E.PutRecords(s.records));
  }

  lemma BodyParts(s: E.CounterSample, raw: seq<byte>, at: nat)
    requires SampleFits(s) && Lies(E.PutSample(s), raw, at)
    ensures at + 4 <= |raw| && Word32(raw, at) == |E.PutSampleBody(s)|
    ensures Lies(Split(s.sequence) + E.PutSource(s), raw, at + 4)
    ensures Lies(Split(|s.records|) + E.PutRecords(s.records), raw, at + 8 + |E.PutSource(s)|)
    ensures |E.PutSample(s)| == 12 + |E.PutSource(s)| + |E.PutRecords(s.records)|
    ensures |E.PutSampleBody(s)| == 8 + |E.PutSource(s)| + |E.PutRecords(s.records)|
  {
    InBuffer(E.PutSample(s), raw, at);
    BodyOf(s);
    var top, rest := Split(s.sequence) + E.PutSource(s), Split(|s.records|) + E.PutRecords(s.records);
    hide Lies, Split, Word32, E.PutSource, E.PutRecords, E.PutSampleBody, E.RecordsFit;
    LiesParts(Split(|E.PutSampleBody(s)|), E.PutSampleBody(s), raw, at);
    LiesParts(top, rest, raw, at + 4);
    WordLies(|E.PutSampleBody(s)|, raw, at);
  }

  lemma SampleLog(s: E.CounterSample, log: seq<Event>)
    requires E.SampleOk(s)
    ensures log + [Title(CountersSampleLine)] + [ShowNum(SamplesGenerated, s.sequence)]
            + [SourceId(s.dsClass, s.dsIndex)] + E.RecordsLines(s.records) == log + E.SampleLines(s)
  {
    hide E.RecordsLines, E.RecordsFit;
  }

  /** A counter sample, wherever it lies, returns right behind its last record. It leaves its
      sequence number, its source and the VLAN of its last VLAN record, with the lines of its
      head and of the tags of its records, and nothing else is changed. */
  lemma CounterSampleAt(s: E.CounterSample, raw: seq<byte>, c: Cut)
    requires SampleFits(s) && Lies(E.PutSample(s), raw, c.p.at)
    ensures ReadCountersSample(s.expanded, raw, c) == Move(Fine, SampleAfter(s, c))
  {
    hide Lies, Word32, ReadTop, ReadRecords, CheckLength, TopAfter, RecordsAfter, E.PutSource, E.PutRecords,
         E.PutSample, E.PutSampleBody, E.RecordsFit, E.SampleFields, E.SampleLines, E.RecordsLines;
    BodyParts(s, raw, c.p.at);
    SampleLog(s, c.log);
    var d := Print(Title(CountersSampleLine), c).(p := Pos(c.p.at + 4, c.p.work));
    TopAt(s, raw, d);
    var e := TopAfter(s, d);
    TopPlace(s, d);
    CountAt(s, raw, e);
    var g := RecordsAfter(s.records, e.(p := Pos(e.p.at + 4, e.p.work)));
    RecordsPlace(s, d);
    LengthPasses(c.p.at + 4, |E.PutSampleBody(s)|, g);
  }

  lemma TopPlace(s: E.CounterSample, d: Cut)
    requires E.SampleOk(s)
    ensures TopAfter(s, d).p.at == d.p.at + 4 + |E.PutSource(s)|
  {
  }

  lemma RecordsPlace(s: E.CounterSample, d: Cut)
    requires SampleFits(s)
    ensures var e := TopAfter(s, d);
            var g := RecordsAfter(s.records, e.(p := Pos(e.p.at + 4, e.p.work)));
            && g == Cut(Pos(d.p.at + 8 + |E.PutSource(s)| + |E.PutRecords(s.records)|,
                            d.p.work + E.RecordsWork(s.records)),
                        E.SampleFields(s, d.f), d.path,
                        d.log + [ShowNum(SamplesGenerated, s.sequence)] + [SourceId(s.dsClass, s.dsIndex)]
                        + E.RecordsLines(s.records))
  {
    hide E.PutSource, E.PutRecords, E.RecordsFields, E.RecordsLines, E.RecordsFit;
  }
}
