/** The A10 per-entry counter records: a common header, perhaps a port and an
    application type, and as many counters as the agent knows of. */
module PerEntry {
  import opened Xdr
  import opened SampleState

  type u64 = n: nat | n < 0x1_0000_0000_0000_0000

  // Big-endian values in a buffer.

  function Word16(raw: seq<byte>, at: nat): u16
    requires at + 2 <= |raw|
  {
    (raw[at] as int) * 0x100 + raw[at + 1] as int
  }

  function Word32(raw: seq<byte>, at: nat): u32
    requires at + 4 <= |raw|
  {
    Join(raw[at], raw[at + 1], raw[at + 2], raw[at + 3])
  }

  function Word64(raw: seq<byte>, at: nat): u64
    requires at + 8 <= |raw|
  {
    (Word32(raw, at) as int) * 0x1_0000_0000 + Word32(raw, at + 4) as int
  }

  // The records.

  datatype Kind = Http | Dns | L4 | L4Ext | SslL4 | Icmp | Udp | Tcp | Other

  /** How many counters the local structure of a record has. */
  function Counters(k: Kind): (n: nat)
    ensures 0 < n < 8192
  {
    match k
    case Http => 119
    case Dns => 42
    case L4 => 165
    case L4Ext => 10
    case SslL4 => 24
    case Icmp => 7
    case Udp | Tcp | Other => 6
  }

  predicate HasPort(k: Kind) {
    !k.L4? && !k.L4Ext? && !k.Icmp?
  }

  const COMMON: nat := 48

  function HeaderLen(k: Kind): nat {
    if HasPort(k) then COMMON + 4 else COMMON
  }

  datatype Header = Header(
    tableType: u32, ipType: u32, staticEntry: u32, src: Address, dst: Address, subnetMask: u16, age: u16)

  // How many names the tables of the printed header have.
  const TABLE_TYPES: nat := 3
  const IP_TYPES: nat := 2

  /** Both types of a header that is there have a name. */
  predicate Named(raw: seq<byte>, at: nat) {
    at + 8 <= |raw| && Word32(raw, at) < TABLE_TYPES && Word32(raw, at + 4) < IP_TYPES
  }

  /** How reading the common header ends: each type is looked up, unchecked, as soon
      as it is read. */
  function CommonEnd(raw: seq<byte>, at: nat): (sig: Signal)
    ensures sig.Fine? <==> at + COMMON <= |raw| && Named(raw, at)
    ensures sig.Fine? || sig == Abort(EOS) || sig == Outside(BadIndex)
  {
    if at + 4 <= |raw| && Word32(raw, at) >= TABLE_TYPES then Outside(BadIndex)
    else if at + 8 <= |raw| && Word32(raw, at + 4) >= IP_TYPES then Outside(BadIndex)
    else if at + COMMON > |raw| then Abort(EOS) else Fine
  }

  /** Either family takes sixteen bytes; the type is looked at as a char. */
  function AddressAt(raw: seq<byte>, at: nat, ipType: u32): Address
    requires at + 16 <= |raw|
  {
    if ipType % 256 == 1 then Address(IP_V4, raw[at..at + 4]) else Address(IP_V6, raw[at..at + 16])
  }

  function HeaderAt(raw: seq<byte>, at: nat): Header
    requires at + COMMON <= |raw|
  {
    var ipType := Word32(raw, at + 4);
    Header(Word32(raw, at), ipType, Word32(raw, at + 8), AddressAt(raw, at + 12, ipType),
           AddressAt(raw, at + 28, ipType), Word16(raw, at + 44), Word16(raw, at + 46))
  }

  /** The length behind a header of h bytes, as 32-bit arithmetic leaves it: it
      must stay positive when taken as signed. */
  function RestOfContext(len: u32, h: nat): (r: int)
    requires h <= 52
    ensures 0 < r <==> 0 < len - h < 0x8000_0000
    ensures 0 < r ==> r == len - h
  {
    if len < h then 0 else
      var left := len - h;
      if left < 0x8000_0000 then left else left - 0x1_0000_0000
  }

  /** The counters of a structure after `n` of them arrived at `at`, as far as the
      buffer goes. */
  function Arrived(old64: seq<u64>, raw: seq<byte>, at: nat, n: nat): (s: seq<u64>)
    ensures |s| == |old64|
    ensures forall i ::
              0 <= i < |s| ==> s[i] == if i < n && at + 8 * i + 8 <= |raw| then Word64(raw, at + 8 * i) else old64[i]
  {
    seq(|old64|, i requires 0 <= i < |old64| =>
      if i < n && at + 8 * i + 8 <= |raw| then Word64(raw, at + 8 * i) else old64[i])
  }

  function Arrived32(old32: seq<u32>, raw: seq<byte>, at: nat, n: nat): (s: seq<u32>)
    ensures |s| == |old32|
    ensures forall i ::
              0 <= i < |s| ==> s[i] == if i < n && at + 4 * i + 4 <= |raw| then Word32(raw, at + 4 * i) else old32[i]
  {
    seq(|old32|, i requires 0 <= i < |old32| =>
      if i < n && at + 4 * i + 4 <= |raw| then Word32(raw, at + 4 * i) else old32[i])
  }

  function Min(a: nat, b: nat): nat {
    if a <= b then a else b
  }

  /** How filling a structure ends, where the cursor is then, and the counters. */
  datatype Fill<T> = Fill(sig: Signal, datap: nat, counters: seq<T>)

  /** A part of `parse` bytes of 64-bit counters at `at`. */
  function Fill64At(parse: nat, raw: seq<byte>, at: nat, old64: seq<u64>): (f: Fill<u64>)
    ensures f.sig.Fine? || f.sig == Abort(EOS)
  {
    if parse == 0 || parse % 8 != 0 then Fill(Abort(EOS), at, old64) else
      var n := Min(parse / 8, |old64|);
      var s := Arrived(old64, raw, at, n);
      if n > 0 && at + 8 * n > |raw| then Fill(Abort(EOS), at, s) else Fill(Fine, at + parse, s)
  }

  /** A part of `parse` bytes of 32-bit counters at `at`. */
  function Fill32At(parse: nat, raw: seq<byte>, at: nat, old32: seq<u32>): (f: Fill<u32>)
    ensures f.sig.Fine? || f.sig == Abort(EOS)
  {
    if parse == 0 || parse % 4 != 0 then Fill(Abort(EOS), at, old32) else
      var n := Min(parse / 4, |old32|);
      var s := Arrived32(old32, raw, at, n);
      if n > 0 && at + 4 * n > |raw| then Fill(Abort(EOS), at, s) else Fill(Fine, at + parse, s)
  }

  /** What a record comes to: how it ends, where the cursor is then, its header,
      its port and application type, its counters. */
  datatype Entry = Entry(sig: Signal, datap: nat, header: Header, port: u16, appType: u16, counters: seq<u64>)

  const NO_HEADER := Header(0, 0, 0, Address(0, []), Address(0, []), 0, 0)

  function Stopped(sig: Signal, at: nat): Entry {
    Entry(sig, at, NO_HEADER, 0, 0, [])
  }

  /** The number of bytes in the counter part, as the 16-bit parse length has it. */
  function ParseLen(k: Kind, len: u32): nat {
    if len < HeaderLen(k) then 0 else (len - HeaderLen(k)) % 0x1_0000
  }

  /** A record of kind k and declared length len that starts at `at`. */
  function EntryAt(k: Kind, len: u32, raw: seq<byte>, at: nat, old64: seq<u64>): Entry
    requires |old64| == Counters(k)
  {
    var h := HeaderLen(k);
    if !CommonEnd(raw, at).Fine? then Stopped(CommonEnd(raw, at), at)
    else if at + h > |raw| || RestOfContext(len, h) <= 0 then Stopped(Abort(EOS), at)
    else
      var f := Fill64At(ParseLen(k, len), raw, at + h, old64);
      if !f.sig.Fine? then Stopped(Abort(EOS), at) else
        Entry(Fine, f.datap, HeaderAt(raw, at),
              if HasPort(k) then Word16(raw, at + COMMON) else 0,
              if HasPort(k) then Word16(raw, at + COMMON + 2) else 0,
              f.counters)
  }

  // Conservation.

  /** Where the cursor is behind a record that does not abort. */
  lemma EntryEnds(k: Kind, len: u32, raw: seq<byte>, at: nat, old64: seq<u64>)
    requires |old64| == Counters(k)
    requires EntryAt(k, len, raw, at, old64).sig.Fine?
    ensures len > HeaderLen(k)
    ensures EntryAt(k, len, raw, at, old64).datap == at + HeaderLen(k) + (len - HeaderLen(k)) % 0x1_0000
  {
    hide Word16, Word32, HeaderAt, Arrived, Counters, CommonEnd;
  }

  /** A record that does not abort moves the cursor by its declared length exactly
      when its counter part is below 65536 bytes. */
  lemma RecordConserved(k: Kind, len: u32, raw: seq<byte>, at: nat, old64: seq<u64>)
    requires |old64| == Counters(k)
    requires EntryAt(k, len, raw, at, old64).sig.Fine?
    ensures EntryAt(k, len, raw, at, old64).datap == at + len <==> len - HeaderLen(k) < 0x1_0000
  {
    hide EntryAt, Counters, HeaderLen;
    EntryEnds(k, len, raw, at, old64);
    var rest := len - HeaderLen(k);
    if rest >= 0x1_0000 {
      assert rest % 0x1_0000 < rest;
    }
  }

  /** A record whose counter part is larger is read as its remainder: the cursor
      stays behind by a multiple of 65536 bytes. */
  lemma RecordWraps(k: Kind, len: u32, raw: seq<byte>, at: nat, old64: seq<u64>)
    requires |old64| == Counters(k)
    requires EntryAt(k, len, raw, at, old64).sig.Fine?
    ensures var e := EntryAt(k, len, raw, at, old64);
            at + len - e.datap == (len - HeaderLen(k)) / 0x1_0000 * 0x1_0000
  {
    hide EntryAt, Counters, HeaderLen;
    EntryEnds(k, len, raw, at, old64);
  }

  /** Such a record: it declares 65544 bytes of counters and is read as 8. */
  lemma RecordFallsBehind()
    ensures var e := EntryAt(Udp, 65596, seq(60, _ => 0), 0, seq(6, _ => 0));
            e.sig.Fine? && e.datap == 60
  {
    hide HeaderAt, Arrived, Word16, Named, CommonEnd;
    var raw: seq<byte> := seq(60, _ => 0);
    ZerosNamed(raw);
    assert HeaderLen(Udp) == 52 && RestOfContext(65596, 52) == 65544 && ParseLen(Udp, 65596) == 8;
  }

  lemma ZeroWord(raw: seq<byte>, at: nat)
    requires at + 4 <= |raw|
    requires raw[at] == 0 && raw[at + 1] == 0 && raw[at + 2] == 0 && raw[at + 3] == 0
    ensures Word32(raw, at) == 0
  {
  }

  lemma ZerosNamed(raw: seq<byte>)
    requires |raw| >= 8 && forall i :: 0 <= i < |raw| ==> raw[i] == 0
    ensures Named(raw, 0)
  {
    hide Word32;
    ZeroWord(raw, 0);
    ZeroWord(raw, 4);
  }

  // Version skew: an agent that sends n counters.

  function LenOf(k: Kind, n: nat): nat {
    HeaderLen(k) + 8 * n
  }

  lemma WholeCounters(k: Kind, n: nat)
    requires n < 8192
    ensures ParseLen(k, LenOf(k, n)) == 8 * n && 8 * n / 8 == n && 8 * n % 8 == 0
  {
  }

  /** Such a record is read exactly when its types have names and the counters that
      are looked at lie in the buffer; those that are stepped over need not. */
  lemma RecordRead(k: Kind, n: nat, raw: seq<byte>, at: nat, old64: seq<u64>)
    requires |old64| == Counters(k) && n < 8192
    ensures EntryAt(k, LenOf(k, n), raw, at, old64).sig.Fine?
       <==> n > 0 && Named(raw, at) && at + LenOf(k, Min(n, Counters(k))) <= |raw|
  {
    hide Word16, HeaderAt, Arrived, Counters, HasPort, ParseLen;
    WholeCounters(k, n);
  }

  /** A counter part that is not whole is refused. */
  lemma PartialCounterAborts(k: Kind, len: u32, raw: seq<byte>, at: nat, old64: seq<u64>)
    requires |old64| == Counters(k) && HeaderLen(k) <= len && (len - HeaderLen(k)) % 8 != 0
    ensures EntryAt(k, len, raw, at, old64)
         == Stopped(if CommonEnd(raw, at).Fine? then Abort(1) else CommonEnd(raw, at), at)
  {
    hide Word16, HeaderAt, Arrived, Counters, HasPort;
    assert (len - HeaderLen(k)) % 0x1_0000 % 8 == (len - HeaderLen(k)) % 8;
  }

  /** The record of a newer agent, with more counters than the local structure,
      gives the same as its truncation to that structure, only that its cursor has
      passed all of it; both leave the tables or neither does. */
  lemma NewerAgent(k: Kind, n: nat, raw: seq<byte>, at: nat, old64: seq<u64>)
    requires |old64| == Counters(k)
    requires Counters(k) <= n < 8192 && at + LenOf(k, n) <= |raw|
    ensures var local := LenOf(k, Counters(k));
            && var newer := EntryAt(k, LenOf(k, n), raw, at, old64);
            && var cut := EntryAt(k, local, raw[..at + local], at, old64);
            && (newer.sig.Fine? <==> Named(raw, at))
            && newer == if Named(raw, at) then cut.(datap := at + LenOf(k, n)) else cut
  {
    hide Word16, Word32, HeaderAt, Arrived, Counters, HasPort, ParseLen;
    var local := Counters(k);
    var short := raw[..at + LenOf(k, local)];
    SamePrefix(raw, short, at, HeaderLen(k), local, old64);
    WholeCounters(k, n);
    WholeCounters(k, local);
    SameWords(raw, short, at);
    SameWords32(raw, short);
  }

  lemma SamePrefix(raw: seq<byte>, short: seq<byte>, at: nat, h: nat, n: nat, old64: seq<u64>)
    requires h >= COMMON && |short| == at + h + 8 * n && short <= raw && |old64| == n
    ensures HeaderAt(raw, at) == HeaderAt(short, at)
    ensures Arrived(old64, raw, at + h, n) == Arrived(old64, short, at + h, n)
  {
    assert raw[at + 12..at + 28] == short[at + 12..at + 28] && raw[at + 28..at + 44] == short[at + 28..at + 44];
    assert raw[at + 12..at + 16] == short[at + 12..at + 16] && raw[at + 28..at + 32] == short[at + 28..at + 32];
  }

  lemma SameWords(raw: seq<byte>, short: seq<byte>, at: nat)
    requires short <= raw
    ensures forall i: nat {:trigger Word16(short, i)} :: i + 2 <= |short| ==> Word16(raw, i) == Word16(short, i)
  {
  }

  /** The record of an older agent, if its types have names, sets the counters it
      carries and no later one. */
  lemma OlderAgent(k: Kind, n: nat, raw: seq<byte>, at: nat, old64: seq<u64>)
    requires |old64| == Counters(k)
    requires 0 < n <= Counters(k) && at + LenOf(k, n) <= |raw|
    ensures var e := EntryAt(k, LenOf(k, n), raw, at, old64);
            && (e.sig.Fine? <==> Named(raw, at))
            && (e.sig.Fine? ==>
                  && |e.counters| == |old64|
                  && (forall i :: 0 <= i < n ==> e.counters[i] == Word64(raw, at + LenOf(k, i)))
                  && (forall i :: n <= i < |old64| ==> e.counters[i] == old64[i]))
  {
    hide Word16, Word32, Word64, HeaderAt, Counters, HasPort, ParseLen;
    RecordRead(k, n, raw, at, old64);
    WholeCounters(k, n);
  }

  // The structures of 32-bit counters.

  lemma NewerAgent32(n: nat, raw: seq<byte>, at: nat, old32: seq<u32>)
    requires 0 < |old32| <= n && at + 4 * n <= |raw|
    ensures var newer := Fill32At(4 * n, raw, at, old32);
            && var cut := Fill32At(4 * |old32|, raw[..at + 4 * |old32|], at, old32);
            newer.sig.Fine? && newer == cut.(datap := at + 4 * n)
  {
    SameWords32(raw, raw[..at + 4 * |old32|]);
    assert 4 * n / 4 == n && 4 * |old32| / 4 == |old32|;
    hide Word32;
    var a, b := Arrived32(old32, raw, at, |old32|), Arrived32(old32, raw[..at + 4 * |old32|], at, |old32|);
    assert forall i :: 0 <= i < |old32| ==> a[i] == b[i];
    assert a == b;
  }

  lemma SameWords32(raw: seq<byte>, short: seq<byte>)
    requires short <= raw
    ensures forall i: nat {:trigger Word32(short, i)} :: i + 4 <= |short| ==> Word32(raw, i) == Word32(short, i)
  {
  }

  lemma OlderAgent32(n: nat, raw: seq<byte>, at: nat, old32: seq<u32>)
    requires 0 < n <= |old32| && at + 4 * n <= |raw|
    ensures var e := Fill32At(4 * n, raw, at, old32);
            && e.sig.Fine? && e.datap == at + 4 * n && |e.counters| == |old32|
            && (forall i :: 0 <= i < n ==> e.counters[i] == Word32(raw, at + 4 * i))
            && (forall i :: n <= i < |old32| ==> e.counters[i] == old32[i])
  {
    hide Word32;
    assert 4 * n / 4 == n;
  }
}
