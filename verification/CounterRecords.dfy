/** The counter records, one function for each kind of layout, over bytes: unlike
    flow records they need not be whole words. Each tells how its reader ends and
    where the cursor is then. */
module CounterRecords {
  import opened Xdr
  import opened SampleState
  import opened PerEntry

  /** Where the decode is: the cursor as an offset into the datagram, which some readers
      move past its end, and the iterations of count-driven loops completed so far. */
  datatype Pos = Pos(at: nat, work: nat)

  /** How a reader ends, and where. */
  datatype Reach = Reach(sig: Signal, p: Pos)
  {
    predicate IsFailure() { !sig.Fine? }

    function PropagateFailure(): Reach
      requires IsFailure()
    {
      this
    }

    function Extract(): Pos
      requires !IsFailure()
    {
      p
    }
  }

  /** A word and the place behind it. */
  datatype Next = Next(w: u32, p: Pos) | Ended(p: Pos)
  {
    predicate IsFailure() { Ended? }

    function PropagateFailure(): Reach
      requires IsFailure()
    {
      Reach(Abort(EOS), p)
    }

    function Extract(): (u32, Pos)
      requires !IsFailure()
    {
      (w, p)
    }
  }

  /** How much of the datagram lies in front of an offset. */
  function Seen(raw: seq<byte>, at: nat): nat {
    if at <= |raw| then at else |raw|
  }

  /** What every reader keeps: it goes forward, and pays at least four bytes of the
      datagram for each iteration. */
  ghost predicate Onward(raw: seq<byte>, a: Pos, b: Pos) {
    a.at <= b.at && a.work <= b.work && 4 * (b.work - a.work) <= Seen(raw, b.at) - Seen(raw, a.at)
  }

  // The cursor.

  /** Passes over n bytes, which must lie in the datagram. */
  function Pass(n: nat, raw: seq<byte>, p: Pos): (r: Reach)
    ensures Onward(raw, p, r.p) && r.sig != Outside(CounterSample)
  {
    Reach(if p.at + n <= |raw| then Fine else Abort(EOS), p.(at := p.at + n))
  }

  function Take(raw: seq<byte>, p: Pos): (n: Next)
    ensures Onward(raw, p, n.p)
    ensures n.Next? ==> n.p.at == p.at + 4 <= |raw| && n.p.work == p.work
  {
    if p.at + 4 > |raw| then Ended(p) else Next(Word32(raw, p.at), p.(at := p.at + 4))
  }

  /** A counted string: its length, and its bytes with their padding. */
  function PassString(raw: seq<byte>, p: Pos): (r: Reach)
    ensures Onward(raw, p, r.p) && r.sig != Outside(CounterSample)
  {
    var (len, p) :- Take(raw, p);
    Pass(4 * Quads(len), raw, p)
  }

  /** A word that indexes a table of `names` names, unchecked. */
  function Lookup(names: nat, raw: seq<byte>, p: Pos): (r: Reach)
    ensures Onward(raw, p, r.p) && r.sig != Outside(CounterSample)
    ensures r.sig.Fine? ==> r.p.at == p.at + 4 <= |raw| && r.p.work == p.work
  {
    var (w, p) :- Take(raw, p);
    Reach(if w < names then Fine else Outside(BadIndex), p)
  }

  /** Counts one completed iteration. */
  function Tick(p: Pos): Pos {
    p.(work := p.work + 1)
  }

  // Host records.

  function ReadHostId(raw: seq<byte>, p: Pos): (r: Reach)
    ensures Onward(raw, p, r.p) && r.sig != Outside(CounterSample)
  {
    var p :- PassString(raw, p);
    var p :- Pass(16, raw, p);
    var p :- Pass(8, raw, p);
    PassString(raw, p)
  }

  function ReadJvm(raw: seq<byte>, p: Pos): (r: Reach)
    ensures Onward(raw, p, r.p) && r.sig != Outside(CounterSample)
  {
    var p :- PassString(raw, p);
    var p :- PassString(raw, p);
    PassString(raw, p)
  }

  function ReadApp(raw: seq<byte>, p: Pos): (r: Reach)
    ensures Onward(raw, p, r.p) && r.sig != Outside(CounterSample)
  {
    var p :- PassString(raw, p);
    Pass(44, raw, p)
  }

  function ReadMacs(n: nat, raw: seq<byte>, p: Pos): (r: Reach)
    ensures Onward(raw, p, r.p) && r.sig != Outside(CounterSample)
  {
    if n == 0 then Reach(Fine, p) else
      var p :- Pass(8, raw, p);
      ReadMacs(n - 1, raw, Tick(p))
  }

  /** One adaptor: its index, and as many addresses as it says. */
  function ReadAdaptor(raw: seq<byte>, p: Pos): (r: Reach)
    ensures Onward(raw, p, r.p) && r.sig != Outside(CounterSample)
    ensures r.sig.Fine? ==> Onward(raw, p, Tick(r.p))
  {
    var (_, p) :- Take(raw, p);
    var (macs, p) :- Take(raw, p);
    ReadMacs(macs, raw, p)
  }

  function ReadAdaptors(n: nat, raw: seq<byte>, p: Pos): (r: Reach)
    ensures Onward(raw, p, r.p) && r.sig != Outside(CounterSample)
  {
    if n == 0 then Reach(Fine, p) else
      var p :- ReadAdaptor(raw, p);
      ReadAdaptors(n - 1, raw, Tick(p))
  }

  function ReadAllAdaptors(raw: seq<byte>, p: Pos): (r: Reach)
    ensures Onward(raw, p, r.p) && r.sig != Outside(CounterSample)
  {
    var (n, p) :- Take(raw, p);
    ReadAdaptors(n, raw, p)
  }

  // The record of 45 packed bytes: a UUID of 37, two words, and pairs of a key and a counter.

  const CUSTOM: nat := 45
  const UUID_LEN: nat := 36
  const PAIR: nat := 12

  /** Where the first zero byte from `at` on is; the end if there is none. */
  function ZeroFrom(raw: seq<byte>, at: nat): (z: nat)
    requires at <= |raw|
    ensures at <= z <= |raw|
    ensures z < |raw| ==> raw[z] == 0
    ensures forall i :: at <= i < z ==> raw[i] != 0
    decreases |raw| - at
  {
    if at == |raw| || raw[at] == 0 then at else ZeroFrom(raw, at + 1)
  }

  /** What is left of a length behind the structure, in 32-bit arithmetic. */
  function PairBytes(len: u32): u32 {
    (len - CUSTOM) % 0x1_0000_0000
  }

  /** The structure is looked at in place, unchecked. Only if its UUID has 36 characters
      are its pairs gone through and skipped. */
  function ReadCustom(len: u32, raw: seq<byte>, p: Pos): (r: Reach)
    ensures Onward(raw, p, r.p) && r.sig != Outside(CounterSample)
  {
    var body := p.(at := p.at + CUSTOM);
    if body.at > |raw| || ZeroFrom(raw, p.at) == |raw| then Reach(Outside(StrayRead), p)
    else if ZeroFrom(raw, p.at) != p.at + UUID_LEN then Reach(Fine, body)
    else
      var left := PairBytes(len);
      if body.at + left / PAIR * PAIR > |raw| then Reach(Outside(StrayRead), body) else
        Pass(4 * Quads(left), raw, body.(work := body.work + left / PAIR))
  }

  // The A10 records.

  function Repeat<T>(v: T, n: nat): (s: seq<T>)
    ensures |s| == n && forall i :: 0 <= i < n ==> s[i] == v
  {
    seq(n, _ => v)
  }

  /** A structure of 64-bit counters, filled from the rest of the record. */
  function ReadTable64(counters: nat, len: u32, raw: seq<byte>, p: Pos): (r: Reach)
    ensures Onward(raw, p, r.p) && r.sig != Outside(CounterSample)
  {
    var f := Fill64At(len % 0x1_0000, raw, p.at, Repeat<u64>(0, counters));
    Reach(f.sig, p.(at := f.datap))
  }

  function ReadTable32(counters: nat, len: u32, raw: seq<byte>, p: Pos): (r: Reach)
    ensures Onward(raw, p, r.p) && r.sig != Outside(CounterSample)
  {
    var f := Fill32At(len % 0x1_0000, raw, p.at, Repeat<u32>(0, counters));
    Reach(f.sig, p.(at := f.datap))
  }

  function ReadEntry(k: Kind, len: u32, raw: seq<byte>, p: Pos): (r: Reach)
    ensures Onward(raw, p, r.p) && r.sig != Outside(CounterSample)
  {
    var e := EntryAt(k, len, raw, p.at, Repeat<u64>(0, Counters(k)));
    Reach(e.sig, p.(at := e.datap))
  }

  function ReadEntryPort(raw: seq<byte>, p: Pos): (r: Reach)
    ensures Onward(raw, p, r.p) && r.sig != Outside(CounterSample)
  {
    if !CommonEnd(raw, p.at).Fine? then Reach(CommonEnd(raw, p.at), p) else Pass(COMMON + 80, raw, p)
  }

  const PROTO_NAMES: nat := 8
  const STATE_NAMES: nat := 4
  const PROTO_STATS: nat := 4
  const APP_STATS: nat := 3

  /** The statistics of one protocol or application, kept in entry i of a table of
      `room` entries, unchecked. */
  function ReadStat(i: nat, room: nat, raw: seq<byte>, p: Pos): (r: Reach)
    ensures Onward(raw, p, r.p) && r.sig != Outside(CounterSample)
    ensures r.sig.Fine? ==> Onward(raw, p, Tick(r.p))
  {
    var p :- Lookup(if i < room then PROTO_NAMES else 0, raw, p);
    var p :- Lookup(STATE_NAMES, raw, p);
    Pass(72, raw, p)
  }

  function ReadStats(i: nat, n: nat, room: nat, raw: seq<byte>, p: Pos): (r: Reach)
    ensures Onward(raw, p, r.p) && r.sig != Outside(CounterSample)
    decreases n - i
  {
    if i >= n then Reach(Fine, p) else
      var p :- ReadStat(i, room, raw, p);
      ReadStats(i + 1, n, room, raw, Tick(p))
  }

  function ReadEntryStats(raw: seq<byte>, p: Pos): (r: Reach)
    ensures Onward(raw, p, r.p) && r.sig != Outside(CounterSample)
  {
    if !CommonEnd(raw, p.at).Fine? then Reach(CommonEnd(raw, p.at), p) else
      var p :- Pass(COMMON, raw, p);
      var (protos, p) :- Take(raw, p);
      var p :- ReadStats(0, protos, PROTO_STATS, raw, p);
      var (apps, p) :- Take(raw, p);
      ReadStats(0, apps, APP_STATS, raw, p)
  }

  /** A flag, a port type with a name or 0, a port, and a name of 64 bytes. */
  function ReadEntryMap(raw: seq<byte>, p: Pos): (r: Reach)
    ensures Onward(raw, p, r.p) && r.sig != Outside(CounterSample)
  {
    if p.at + 2 <= |raw| && raw[p.at + 1] > PROTO_NAMES then Reach(Outside(BadIndex), p) else Pass(68, raw, p)
  }

  // The tags.

  datatype Layout =
    | Plain(n: nat) | VlanCounters | HostId | Adaptors | Jvm | App
    | Custom | Table64(counters: nat) | Table32(counters: nat) | PerKind(kind: Kind)
    | EntryPort | EntryStats | EntryMap | Unknown

  /** The formats of enterprise 40842. */
  function A10Layout(format: nat): Layout {
    match format
    case 1 => Table64(134)
    case 2 => EntryStats
    case 3 => Table64(124)
    case 4 => Table64(39)
    case 5 => PerKind(Http)
    case 6 => PerKind(Dns)
    case 7 => PerKind(L4)
    case 8 => EntryPort
    case 9 => Table64(34)
    case 10 => Table64(19)
    case 11 => PerKind(SslL4)
    case 12 => PerKind(Icmp)
    case 13 => PerKind(Udp)
    case 14 => PerKind(Tcp)
    case 15 => PerKind(Other)
    case 16 => PerKind(L4Ext)
    case 21 => Table64(104)
    case 22 => Table64(62)
    case 23 => Table64(28)
    case 24 => Table64(45)
    case 25 => Table64(10)
    case 26 => Table64(60)
    case 27 => Table64(30)
    case 28 => Table64(14)
    case 29 => Table64(36)
    case 30 => Table64(99)
    case 31 => Table64(100)
    case 60 => EntryMap
    case 64 => Table64(5)
    case 65 => Table32(256)
    case 66 => Table32(38)
    case 67 => Plain(160)
    case 68 => Plain(68)
    case 80 => Plain(572)
    case 81 => Plain(268)
    case 82 | 84 => Plain(108)
    case 83 => Plain(88)
    case 3000 => Custom
    case _ => Unknown
  }

  const A10: u32 := 40842 * 4096
  const NVML: u32 := 5703 * 4096 + 1

  /** The layout of the record with a tag; that of JMX depends on its length. */
  function LayoutOf(tag: u32, len: u32): Layout {
    match tag
    case 1 | 1001 => Custom
    case 2 | 2005 | 2103 => Plain(52)
    case 3 | 2004 => Plain(72)
    case 4 | 6 => Plain(80)
    case 5 => VlanCounters
    case 7 => Plain(56)
    case 1002 | 2101 => Plain(12)
    case 2000 => HostId
    case 2001 => Adaptors
    case 2002 => Plain(8)
    case 2003 => Plain(68)
    case 2006 | 2104 | 2203 => Plain(40)
    case 2100 => Plain(28)
    case 2102 => Plain(16)
    case 2105 => Jvm
    case 2106 => Plain(if len > 100 then 108 else 100)
    case 2200 => Plain(144)
    case 2201 => Plain(60)
    case 2202 => App
    case 2204 => Plain(140)
    case 2205 => Plain(92)
    case 2206 => Plain(20)
    case _ => if tag == NVML then Plain(48) else if tag >= A10 then A10Layout(tag - A10) else Unknown
  }

  function ReadCounters(tag: u32, len: u32, raw: seq<byte>, p: Pos): (r: Reach)
    ensures Onward(raw, p, r.p) && r.sig != Outside(CounterSample)
  {
    match LayoutOf(tag, len)
    case Plain(n) => Pass(n, raw, p)
    case VlanCounters => Pass(28, raw, p)
    case HostId => ReadHostId(raw, p)
    case Adaptors => ReadAllAdaptors(raw, p)
    case Jvm => ReadJvm(raw, p)
    case App => ReadApp(raw, p)
    case Custom => ReadCustom(len, raw, p)
    case Table64(counters) => ReadTable64(counters, len, raw, p)
    case Table32(counters) => ReadTable32(counters, len, raw, p)
    case PerKind(kind) => ReadEntry(kind, len, raw, p)
    case EntryPort => ReadEntryPort(raw, p)
    case EntryStats => ReadEntryStats(raw, p)
    case EntryMap => ReadEntryMap(raw, p)
    case Unknown => Pass(4 * Quads(len), raw, p)
  }
}
