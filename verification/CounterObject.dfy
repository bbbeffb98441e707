/** The readers of counters as methods that move the cursor of the sample structure:
    the object holds the part of the structure that they work on. Each is proved to
    end, and to leave the cursor, as the function for its layout says. */
module CounterObject {
  import opened Xdr
  import opened SampleState
  import opened PerEntry
  import opened CounterRecords
  import opened CounterSamples
  import Reader

  /** A datagram fits the receive buffer. */
  type Buffer = s: seq<byte> | |s| <= 65536

  /** The pairs of a key and a counter behind the structure of 45 bytes. */
  function PairsAt(n: nat, raw: seq<byte>, at: nat): (s: seq<(u32, u64)>)
    requires at + PAIR * n <= |raw|
    ensures |s| == n
    ensures forall i :: 0 <= i < n ==> s[i] == (Word32(raw, at + PAIR * i), Word64(raw, at + PAIR * i + 4))
  {
    seq(n, i requires 0 <= i < n => (Word32(raw, at + PAIR * i), Word64(raw, at + PAIR * i + 4)))
  }

  class CounterSample {
    const rawSample: Buffer
    var datap: nat
    var currentContextLength: u32
    var num: map<NumSlot, u32>
    var header: Header
    var port: u16
    var appType: u16
    const others: Fields
    ghost const path: AsPath
    ghost var log: seq<Event>
    ghost var work: nat

    ghost function Here(): Pos
      reads this
    {
      Pos(datap, work)
    }

    ghost function View(): Cut
      reads this
    {
      Cut(Here(), others.(num := num), path, log)
    }

    /** A result as a function tells it; where the cursor is after a failure is left
        open, and nothing looks at it any more. */
    ghost predicate Reaches(sig: Signal, r: Reach)
      reads this
    {
      sig == r.sig && work == r.p.work && (sig.Fine? ==> datap == r.p.at)
    }

    constructor (raw: Buffer, at: nat, f: Fields, ghost p: AsPath, ghost lines: seq<Event>, ghost iterations: nat)
      ensures rawSample == raw && View() == Cut(Pos(at, iterations), f, p, lines)
    {
      rawSample, datap, currentContextLength, num, others := raw, at, 0, f.num, f;
      header, port, appType := NO_HEADER, 0, 0;
      path, log, work := p, lines, iterations;
    }

    method GetData32() returns (sig: Signal, v: u32)
      modifies this`datap
      ensures sig == if old(datap) + 4 <= |rawSample| then Fine else Abort(EOS)
      ensures sig.Fine? ==> datap == old(datap) + 4 && v == Word32(rawSample, old(datap))
    {
      if datap + 4 > |rawSample| {
        return Abort(EOS), 0;
      }
      v := Word32(rawSample, datap);
      datap, sig := datap + 4, Fine;
    }

    method GetData64() returns (sig: Signal, v: u64)
      modifies this`datap
      ensures sig == if old(datap) + 8 <= |rawSample| then Fine else Abort(EOS)
      ensures sig.Fine? ==> datap == old(datap) + 8 && v == Word64(rawSample, old(datap))
    {
      v := 0;
      var hi, lo;
      sig, hi := GetData32();
      if sig.Fine? {
        sig, lo := GetData32();
        v := if sig.Fine? then (hi as int) * 0x1_0000_0000 + lo as int else 0;
      }
    }

    method GetData16() returns (sig: Signal, v: u16)
      modifies this`datap
      ensures sig == if old(datap) + 2 <= |rawSample| then Fine else Abort(EOS)
      ensures sig.Fine? ==> datap == old(datap) + 2 && v == Word16(rawSample, old(datap))
    {
      if datap + 2 > |rawSample| {
        return Abort(EOS), 0;
      }
      v := Word16(rawSample, datap);
      datap, sig := datap + 2, Fine;
    }

    method SkipBytes(skip: u32) returns (sig: Signal)
      modifies this`datap
      ensures sig == if old(datap) + 4 * Quads(skip) <= |rawSample| then Fine else Abort(EOS)
      ensures sig.Fine? ==> datap == old(datap) + 4 * Quads(skip)
    {
      if skip + 3 < 0x1_0000_0000 {
        assert (skip + 3) % 0x1_0000_0000 == skip + 3;
      }
      var quads := (skip + 3) % 0x1_0000_0000 / 4;
      datap := datap + 4 * quads;
      sig := if skip > |rawSample| || datap > |rawSample| then Abort(EOS) else Fine;
    }

    method GetDDoSAddress(ipType: u32) returns (sig: Signal, address: Address)
      modifies this`datap
      ensures sig == if old(datap) + 16 <= |rawSample| then Fine else Abort(EOS)
      ensures sig.Fine? ==> datap == old(datap) + 16 && address == AddressAt(rawSample, old(datap), ipType)
    {
      var start := datap;
      address := Address(IP_V6, []);
      if ipType % 256 == 1 {
        var v;
        sig, v := GetData32();
        if sig.Fine? {
          address := Address(IP_V4, rawSample[start..start + 4]);
          sig := SkipBytes(12);
        }
      } else {
        sig := SkipBytes(16);
        if sig.Fine? {
          address := Address(IP_V6, rawSample[start..start + 16]);
        }
      }
    }

    method ReadCommon() returns (sig: Signal)
      modifies this`datap, this`header
      ensures sig == CommonEnd(rawSample, old(datap))
      ensures sig.Fine? ==> datap == old(datap) + COMMON && header == HeaderAt(rawSample, old(datap))
    {
      hide Word16, Word32, AddressAt;
      sig := Fine;
      var tableType, ipType, staticEntry, src, dst, subnetMask, age;
      tableType :- GetData32();
      if tableType >= TABLE_TYPES {
        return Outside(BadIndex);
      }
      ipType :- GetData32();
      if ipType >= IP_TYPES {
        return Outside(BadIndex);
      }
      staticEntry :- GetData32();
      src :- GetDDoSAddress(ipType);
      dst :- GetDDoSAddress(ipType);
      subnetMask :- GetData16();
      age :- GetData16();
      header := Header(tableType, ipType, staticEntry, src, dst, subnetMask, age);
    }

    method ReadPort() returns (sig: Signal)
      modifies this`datap, this`port, this`appType
      ensures sig == if old(datap) + 4 <= |rawSample| then Fine else Abort(EOS)
      ensures sig.Fine? ==>
                && datap == old(datap) + 4
                && port == Word16(rawSample, old(datap)) && appType == Word16(rawSample, old(datap) + 2)
    {
      sig := Fine;
      port :- GetData16();
      appType :- GetData16();
    }

    /** Takes the header off the length of the record. */
    method UpdateCtxLen(len: u16) returns (sig: Signal)
      requires len <= 52
      modifies this`currentContextLength
      ensures sig == if RestOfContext(old(currentContextLength), len) > 0 then Fine else Abort(EOS)
      ensures sig.Fine? ==> currentContextLength == old(currentContextLength) - len
    {
      if len > currentContextLength {
        return Abort(EOS);
      }
      var left := currentContextLength - len;
      var ctxLen := if left < 0x8000_0000 then left else left - 0x1_0000_0000;
      if ctxLen <= 0 {
        return Abort(EOS);
      }
      currentContextLength, sig := ctxLen, Fine;
    }

    /** Fills a structure of 64-bit counters with as many as there are, and steps
        over those it has no room for. */
    method PopulateU64(s: array<u64>) returns (sig: Signal)
      requires 8 * s.Length < 0x1_0000
      modifies this`datap, s
      ensures var e := Fill64At(currentContextLength % 0x1_0000, rawSample, old(datap), old(s[..]));
              sig == e.sig && s[..] == e.counters && (sig.Fine? ==> datap == e.datap)
    {
      hide Word16, Word32, Word64;
      var parse := currentContextLength % 0x1_0000;
      if parse == 0 || parse % 8 != 0 {
        return Abort(EOS);
      }
      var n, i := Min(parse / 8, s.Length), 0;
      ghost var start, was := datap, s[..];
      while i < n
        invariant i <= n <= s.Length && datap == start + 8 * i
        invariant i == 0 || datap <= |rawSample|
        invariant s[..] == Arrived(was, rawSample, start, i)
      {
        var data;
        sig, data := GetData64();
        if sig.IsFailure() {
          return;
        }
        s[i] := data;
        i := i + 1;
      }
      if 8 * s.Length < parse {
        datap := datap + (parse - 8 * s.Length);
      }
      sig := Fine;
    }

    method PopulateU32(s: array<u32>) returns (sig: Signal)
      requires 4 * s.Length < 0x1_0000
      modifies this`datap, s
      ensures var e := Fill32At(currentContextLength % 0x1_0000, rawSample, old(datap), old(s[..]));
              sig == e.sig && s[..] == e.counters && (sig.Fine? ==> datap == e.datap)
    {
      hide Word16, Word32, Word64;
      var parse := currentContextLength % 0x1_0000;
      if parse == 0 || parse % 4 != 0 {
        return Abort(EOS);
      }
      var n, i := Min(parse / 4, s.Length), 0;
      ghost var start, was := datap, s[..];
      while i < n
        invariant i <= n <= s.Length && datap == start + 4 * i
        invariant i == 0 || datap <= |rawSample|
        invariant s[..] == Arrived32(was, rawSample, start, i)
      {
        var data;
        sig, data := GetData32();
        if sig.IsFailure() {
          return;
        }
        s[i] := data;
        i := i + 1;
      }
      if 4 * s.Length < parse {
        datap := datap + (parse - 4 * s.Length);
      }
      sig := Fine;
    }

    /** Reads one per-entry record into the local structure of its kind. */
    method ReadPerEntry(k: Kind, s: array<u64>) returns (sig: Signal)
      requires s.Length == Counters(k)
      modifies this`datap, this`header, this`port, this`appType, this`currentContextLength, s
      ensures var e := EntryAt(k, old(currentContextLength), rawSample, old(datap), old(s[..]));
              && sig == e.sig
              && (sig.Fine? ==>
                    && datap == e.datap && header == e.header && s[..] == e.counters
                    && (HasPort(k) ==> port == e.port && appType == e.appType))
    {
      hide Word16, Word32, HeaderAt, Fill64At, Counters, CommonEnd, Named, RestOfContext;
      sig := Fine;
      :- ReadCommon();
      if HasPort(k) {
        :- ReadPort();
      }
      :- UpdateCtxLen(if HasPort(k) then COMMON + 4 else COMMON);
      sig := PopulateU64(s);
    }

    // The records.

    /** So many words, each read and printed on its own. */
    method ReadPlain(words: nat) returns (sig: Signal)
      requires words > 0
      modifies this`datap
      ensures Reaches(sig, Pass(4 * words, rawSample, old(Here())))
    {
      hide Word32;
      var i, start := 0, datap;
      while i < words
        invariant i <= words && datap == start + 4 * i
        invariant i > 0 ==> datap <= |rawSample|
      {
        var _ :- GetData32();
        i := i + 1;
      }
      sig := Fine;
    }

    method ReadVlan() returns (sig: Signal)
      modifies this`datap, this`num
      ensures Reaches(sig, Pass(28, rawSample, old(Here())))
      ensures View().f == VlanStored(rawSample, old(View())).f
    {
      var inVlan :- GetData32();
      num := num[InVlan := inVlan];
      sig := ReadPlain(6);
    }

    method PassString() returns (sig: Signal)
      modifies this`datap
      ensures Reaches(sig, CounterRecords.PassString(rawSample, old(Here())))
    {
      hide Word32, Quads;
      var len :- GetData32();
      sig := SkipBytes(len);
    }

    method ReadHostId() returns (sig: Signal)
      modifies this`datap
      ensures Reaches(sig, CounterRecords.ReadHostId(rawSample, old(Here())))
    {
      hide CounterRecords.PassString;
      sig := Fine;
      :- PassString();
      :- SkipBytes(16);
      :- ReadPlain(2);
      sig := PassString();
    }

    method ReadJvm() returns (sig: Signal)
      modifies this`datap
      ensures Reaches(sig, CounterRecords.ReadJvm(rawSample, old(Here())))
    {
      hide CounterRecords.PassString;
      sig := Fine;
      :- PassString();
      :- PassString();
      sig := PassString();
    }

    method ReadApp() returns (sig: Signal)
      modifies this`datap
      ensures Reaches(sig, CounterRecords.ReadApp(rawSample, old(Here())))
    {
      hide CounterRecords.PassString;
      sig := Fine;
      :- PassString();
      sig := ReadPlain(11);
    }

    method ReadMacs(macs: nat) returns (sig: Signal)
      modifies this`datap, this`work
      ensures Reaches(sig, CounterRecords.ReadMacs(macs, rawSample, old(Here())))
    {
      var j := 0;
      while j < macs
        invariant j <= macs
        invariant CounterRecords.ReadMacs(macs - j, rawSample, Here())
               == CounterRecords.ReadMacs(macs, rawSample, old(Here()))
      {
        :- SkipBytes(8);
        j, work := j + 1, work + 1;
      }
      sig := Fine;
    }

    method ReadAdaptor() returns (sig: Signal)
      modifies this`datap, this`work
      ensures Reaches(sig, CounterRecords.ReadAdaptor(rawSample, old(Here())))
    {
      hide Word32, CounterRecords.ReadMacs;
      var ifIndex :- GetData32();
      var macs :- GetData32();
      sig := ReadMacs(macs);
    }

    method ReadAdaptors() returns (sig: Signal)
      modifies this`datap, this`work
      ensures Reaches(sig, ReadAllAdaptors(rawSample, old(Here())))
    {
      hide Word32, CounterRecords.ReadAdaptor;
      var adaptors :- GetData32();
      ghost var first := Here();
      var i := 0;
      while i < adaptors
        invariant i <= adaptors
        invariant CounterRecords.ReadAdaptors(adaptors - i, rawSample, Here())
               == CounterRecords.ReadAdaptors(adaptors, rawSample, first)
      {
        :- ReadAdaptor();
        i, work := i + 1, work + 1;
      }
      sig := Fine;
    }

    /** The structure of 45 bytes and its pairs, which are looked at in place. */
    method ReadCustom() returns (sig: Signal, pairs: seq<(u32, u64)>)
      modifies this`datap, this`currentContextLength, this`work
      ensures Reaches(sig, CounterRecords.ReadCustom(old(currentContextLength), rawSample, old(Here())))
      ensures var n, body := PairBytes(old(currentContextLength)) / PAIR, old(datap) + CUSTOM;
              sig.Fine? && datap != body ==> body + PAIR * n <= |rawSample| && pairs == PairsAt(n, rawSample, body)
    {
      hide Word32, Word64, Quads;
      pairs := [];
      var start := datap;
      if start + CUSTOM > |rawSample| {
        return Outside(StrayRead), pairs;
      }
      datap := datap + CUSTOM;
      var uuidEnd := ZeroFrom(rawSample, start);
      if uuidEnd == |rawSample| {
        return Outside(StrayRead), pairs;
      }
      currentContextLength := (currentContextLength - CUSTOM) % 0x1_0000_0000;
      if uuidEnd != start + UUID_LEN {
        return Fine, pairs;
      }
      var n, i := currentContextLength / PAIR, 0;
      while i < n
        invariant i <= n && datap + PAIR * i <= |rawSample|
        invariant pairs == PairsAt(i, rawSample, datap)
      {
        if datap + PAIR * (i + 1) > |rawSample| {
          return Outside(StrayRead), pairs;
        }
        pairs := pairs + [(Word32(rawSample, datap + PAIR * i), Word64(rawSample, datap + PAIR * i + 4))];
        i := i + 1;
      }
      work := work + n;
      sig := SkipBytes(currentContextLength);
    }

    method ReadTable64(counters: nat) returns (sig: Signal)
      requires counters < 0x2000
      modifies this`datap
      ensures Reaches(sig, CounterRecords.ReadTable64(counters, currentContextLength, rawSample, old(Here())))
    {
      hide Fill64At;
      var s := new u64[counters](_ => 0);
      assert s[..] == Repeat<u64>(0, counters);
      sig := PopulateU64(s);
    }

    method ReadTable32(counters: nat) returns (sig: Signal)
      requires counters < 0x4000
      modifies this`datap
      ensures Reaches(sig, CounterRecords.ReadTable32(counters, currentContextLength, rawSample, old(Here())))
    {
      hide Fill32At;
      var s := new u32[counters](_ => 0);
      assert s[..] == Repeat<u32>(0, counters);
      sig := PopulateU32(s);
    }

    method ReadEntry(k: Kind) returns (sig: Signal)
      modifies this`datap, this`header, this`port, this`appType, this`currentContextLength
      ensures Reaches(sig, CounterRecords.ReadEntry(k, old(currentContextLength), rawSample, old(Here())))
    {
      hide EntryAt, Counters;
      var s := new u64[Counters(k)](_ => 0);
      assert s[..] == Repeat<u64>(0, Counters(k));
      sig := ReadPerEntry(k, s);
    }

    method ReadEntryPort() returns (sig: Signal)
      modifies this`datap, this`header
      ensures Reaches(sig, CounterRecords.ReadEntryPort(rawSample, old(Here())))
    {
      hide CommonEnd, HeaderAt;
      sig := Fine;
      :- ReadCommon();
      sig := ReadPlain(20);
    }

    /** The statistics of one protocol or application go to entry i of a table. */
    method ReadStat(i: nat, room: nat) returns (sig: Signal)
      modifies this`datap
      ensures Reaches(sig, CounterRecords.ReadStat(i, room, rawSample, old(Here())))
    {
      hide Word32;
      var proto :- GetData32();
      if proto >= PROTO_NAMES || i >= room {
        return Outside(BadIndex);
      }
      var state :- GetData32();
      if state >= STATE_NAMES {
        return Outside(BadIndex);
      }
      sig := ReadPlain(18);
    }

    method ReadStats(n: nat, room: nat) returns (sig: Signal)
      modifies this`datap, this`work
      ensures Reaches(sig, CounterRecords.ReadStats(0, n, room, rawSample, old(Here())))
    {
      hide CounterRecords.ReadStat;
      var i := 0;
      while i < n
        invariant i <= n
        invariant CounterRecords.ReadStats(i, n, room, rawSample, Here())
               == CounterRecords.ReadStats(0, n, room, rawSample, old(Here()))
      {
        :- ReadStat(i, room);
        i, work := i + 1, work + 1;
      }
      sig := Fine;
    }

    method ReadEntryStats() returns (sig: Signal)
      modifies this`datap, this`header, this`work
      ensures Reaches(sig, CounterRecords.ReadEntryStats(rawSample, old(Here())))
    {
      hide CommonEnd, HeaderAt, CounterRecords.ReadStats, Word32;
      sig := Fine;
      :- ReadCommon();
      var protos :- GetData32();
      :- ReadStats(protos, PROTO_STATS);
      var apps :- GetData32();
      sig := ReadStats(apps, APP_STATS);
    }

    method GetDataU8() returns (sig: Signal, v: byte)
      modifies this`datap
      ensures sig == if old(datap) + 1 <= |rawSample| then Fine else Abort(EOS)
      ensures sig.Fine? ==> datap == old(datap) + 1 && v == rawSample[old(datap)]
    {
      if datap + 1 > |rawSample| {
        return Abort(EOS), 0;
      }
      v := rawSample[datap];
      datap, sig := datap + 1, Fine;
    }

    /** Passes over a fixed number of bytes that are copied as a name. */
    method GetData8(len: nat) returns (sig: Signal)
      modifies this`datap
      ensures Reaches(sig, Pass(len, rawSample, old(Here())))
    {
      datap := datap + len;
      sig := if datap > |rawSample| then Abort(EOS) else Fine;
    }

    method ReadEntryMap() returns (sig: Signal)
      modifies this`datap
      ensures Reaches(sig, CounterRecords.ReadEntryMap(rawSample, old(Here())))
    {
      hide Word16;
      var isSrc :- GetDataU8();
      var portType :- GetDataU8();
      if portType > PROTO_NAMES {
        return Outside(BadIndex);
      }
      var mapPort :- GetData16();
      sig := GetData8(64);
    }

    // Samples.

    method ReadByTag(tag: u32, length: u32) returns (sig: Signal)
      requires currentContextLength == length
      modifies this
      ensures Reaches(sig, ReadCounters(tag, length, rawSample, old(Here())))
      ensures View().f == Marks(tag, length, rawSample, old(View())).f
      ensures log == Marks(tag, length, rawSample, old(View())).log
    {
      hide LayoutOf, CounterRecords.ReadHostId, CounterRecords.ReadJvm, CounterRecords.ReadApp, ReadAllAdaptors,
           CounterRecords.ReadCustom, CounterRecords.ReadTable64, CounterRecords.ReadTable32,
           CounterRecords.ReadEntry, CounterRecords.ReadEntryPort, CounterRecords.ReadEntryStats,
           CounterRecords.ReadEntryMap, Quads;
      LayoutSizes(tag, length);
      match LayoutOf(tag, length) {
        case Plain(n) => sig := ReadPlain(n / 4);
        case VlanCounters => sig := ReadVlan();
        case HostId => sig := ReadHostId();
        case Adaptors => sig := ReadAdaptors();
        case Jvm => sig := ReadJvm();
        case App => sig := ReadApp();
        case Custom =>
          var pairs;
          sig, pairs := ReadCustom();
        case Table64(counters) => sig := ReadTable64(counters);
        case Table32(counters) => sig := ReadTable32(counters);
        case PerKind(kind) => sig := ReadEntry(kind);
        case EntryPort => sig := ReadEntryPort();
        case EntryStats => sig := ReadEntryStats();
        case EntryMap => sig := ReadEntryMap();
        case Unknown =>
          log := log + [Skipped(false, tag, length)];
          sig := SkipBytes(length);
      }
    }

    /** The same for a state, as a function on states tells it. */
    ghost predicate Leaves(sig: Signal, m: Move)
      reads this
    {
      && sig == m.sig && View().f == m.c.f && path == m.c.path && log == m.c.log && work == m.c.p.work
      && (sig.Fine? ==> datap == m.c.p.at)
    }

    method ReadElement() returns (sig: Signal)
      modifies this
      ensures Leaves(sig, CounterSamples.ReadElement(rawSample, old(View())))
    {
      hide ReadCounters, Marks, Word32;
      var tag :- GetData32();
      log := log + [BlockTag(tag)];
      var length :- GetData32();
      currentContextLength := length;
      sig := ReadByTag(tag, length);
      if sig.Fine? {
        work := work + 1;
      }
    }

    method ReadRecords() returns (sig: Signal)
      modifies this
      ensures Leaves(sig, CounterSamples.ReadRecords(rawSample, old(View())))
    {
      hide CounterSamples.ReadElement, Word32;
      var numElements :- GetData32();
      ghost var first := View();
      var el := 0;
      while el < numElements
        invariant el <= numElements
        invariant ReadElements(numElements - el, rawSample, View()) == ReadElements(numElements, rawSample, first)
      {
        :- ReadElement();
        el := el + 1;
      }
      sig := Fine;
    }

    /** The next word, as a function on states tells it. */
    method GetWord() returns (sig: Signal, v: u32)
      modifies this`datap
      ensures var g := Word(rawSample, old(View()));
              if g.Whole? then sig == Fine && v == g.w && View() == g.c
              else sig == Abort(EOS) && Leaves(sig, Move(sig, g.c))
    {
      hide Word32, EndsOf, Onward;
      sig, v := GetData32();
    }

    method Store(d: NumSlot, v: u32)
      modifies this`num
      ensures View() == Keep(d, v, old(View()))
    {
      num := num[d := v];
    }

    function Field(d: NumSlot): (v: u32)
      reads this
      ensures v == Num(View().f, d)
    {
      if d in num then num[d] else 0
    }

    method ReadNum(d: NumSlot) returns (sig: Signal)
      requires d != DatagramVersion && d != DstPeerAs && d != DstAs
      modifies this
      ensures Leaves(sig, CounterSamples.ReadNum(d, rawSample, old(View())))
    {
      hide Word32, EndsOf, Onward, Keep, Word;
      var v :- GetWord();
      Store(d, v);
      sig := Fine;
    }

    /** Reads one word into a field and prints it. */
    method ReadShown(d: NumSlot) returns (sig: Signal)
      requires d != DatagramVersion && d != DstPeerAs && d != DstAs
      modifies this
      ensures Leaves(sig, CounterSamples.ReadShown(d, rawSample, old(View())))
    {
      hide CounterSamples.ReadNum, EndsOf, Onward, Num;
      sig := Fine;
      :- ReadNum(d);
      log := log + [ShowNum(d, Field(d))];
    }

    method ReadSource(expanded: bool) returns (sig: Signal)
      modifies this
      ensures Leaves(sig, CounterSamples.ReadSource(expanded, rawSample, old(View())))
    {
      hide CounterSamples.ReadNum, ReadSourcePacked, EndsOf, Onward;
      sig := Fine;
      if expanded {
        :- ReadNum(DsClass);
        :- ReadNum(DsIndex);
      } else {
        :- ReadSamplerId();
      }
    }

    method ReadSamplerId() returns (sig: Signal)
      modifies this
      ensures Leaves(sig, ReadSourcePacked(rawSample, old(View())))
    {
      hide Word32, EndsOf, Onward, Keep, ClassOf, IndexOf, Word;
      var samplerId :- GetWord();
      Store(DsClass, ClassOf(samplerId));
      Store(DsIndex, IndexOf(samplerId));
      sig := Fine;
    }

    method ReadTop(expanded: bool) returns (sig: Signal)
      modifies this
      ensures Leaves(sig, CounterSamples.ReadTop(expanded, rawSample, old(View())))
    {
      hide Word32, EndsOf, Onward, Num, CounterSamples.ReadShown, CounterSamples.ReadSource;
      sig := Fine;
      :- ReadShown(SamplesGenerated);
      :- ReadSource(expanded);
      log := log + [SourceId(Field(DsClass), Field(DsIndex))];
    }

    /** The bytes read since `start`, rounded up to words, against a stated length. */
    method LengthCheck(start: nat, len: u32) returns (sig: Signal)
      requires start <= datap
      ensures Leaves(sig, CheckLength(start, len, View()))
    {
      var actualLen := (datap - start + 3) / 4 * 4 % 0x1_0000_0000;
      // the length is passed as an int
      var signed := if len < 0x8000_0000 then len as int else len - 0x1_0000_0000;
      var adjustedLen := (signed + 3) / 4 * 4 % 0x1_0000_0000;
      SignedLength(len);
      RoundedLengths(datap - start, len);
      if actualLen != adjustedLen {
        return Abort(LENGTH_ERROR);
      }
      sig := Fine;
    }

    method ReadCountersSample(expanded: bool) returns (sig: Signal)
      modifies this
      ensures Leaves(sig, CounterSamples.ReadCountersSample(expanded, rawSample, old(View())))
    {
      hide CounterSamples.ReadTop, CounterSamples.ReadRecords, CheckLength, Word32;
      log := log + [Title(CountersSampleLine)];
      var sampleLength :- GetData32();
      var sampleStart := datap;
      :- ReadTop(expanded);
      :- ReadRecords();
      sig := LengthCheck(sampleStart, sampleLength);
    }

    method ReadBlocks(version: u32) returns (sig: Signal)
      modifies this
      ensures Leaves(sig, var m := ReadGeneric(version, rawSample, old(View()));
                          if m.sig.Fine? then ReadSpecific(version, rawSample, m.c) else m)
    {
      hide Word32;
      match version {
        case 1 | 2 | 3 | 4 | 5 | 6 => :- ReadPlain(22);
        case 7 =>
        case _ => return Abort(DECODE_ERROR);
      }
      match version {
        case 2 => sig := ReadPlain(13);
        case 3 => sig := ReadPlain(18);
        case 5 => sig := ReadPlain(20);
        case 7 => sig := ReadVlan();
        case _ => sig := Fine;
      }
    }

    method ReadCountersSampleV2V4() returns (sig: Signal)
      modifies this
      ensures Leaves(sig, ReadCountersSampleV24(rawSample, old(View())))
    {
      hide CounterSamples.ReadTop, CounterSamples.ReadShown, ReadGeneric, ReadSpecific, EndsOf, Onward, Num;
      sig := Fine;
      log := log + [Title(CountersSampleLine)];
      :- ReadTop(false);
      :- ReadShown(StatsSamplingInterval);
      :- ReadShown(CounterBlockVersion);
      sig := ReadBlocks(Field(CounterBlockVersion));
    }
  }

  lemma LayoutSizes(tag: u32, len: u32)
    ensures LayoutOf(tag, len).Plain? ==> LayoutOf(tag, len).n > 0 && LayoutOf(tag, len).n % 4 == 0
    ensures LayoutOf(tag, len).Table64? ==> LayoutOf(tag, len).counters < 0x2000
    ensures LayoutOf(tag, len).Table32? ==> LayoutOf(tag, len).counters < 0x4000
  {
  }
}
