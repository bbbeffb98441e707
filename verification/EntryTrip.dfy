/** The A10 per-entry record as an agent writes it, and what reading it gives. */
module EntryTrip {
  import opened Xdr
  import opened SampleState
  import opened PerEntry
  import opened ByteFields

  /** Sixteen bytes for either family: behind an IPv4 address come twelve that are not looked at. */
  function PutAddress(a: Address, filler: seq<byte>): seq<byte> {
    a.bytes + filler
  }

  /** The table has a name, and the addresses are of the family that the type says: 1 is
      IPv4, and 0 is IPv6. */
  predicate HeaderOk(h: Header) {
    && h.tableType < 3 && h.ipType < 2
    && (h.ipType == 1 ==> h.src.kind == 1 && h.dst.kind == 1 && |h.src.bytes| == 4 && |h.dst.bytes| == 4)
    && (h.ipType == 0 ==> h.src.kind == 2 && h.dst.kind == 2 && |h.src.bytes| == 16 && |h.dst.bytes| == 16)
  }

  /** A per-entry record: the bytes behind the addresses, and a port and an application
      type that only some kinds send. */
  datatype EntryRecord = EntryRecord(
    kind: Kind, header: Header, srcFiller: seq<byte>, dstFiller: seq<byte>, port: u16, appType: u16,
    counters: seq<u64>)

  predicate EntryOk(e: EntryRecord) {
    && HeaderOk(e.header) && 0 < |e.counters| < 8192
    && |e.header.src.bytes| + |e.srcFiller| == 16 && |e.header.dst.bytes| + |e.dstFiller| == 16
  }

  function PutCommon(h: Header, srcFiller: seq<byte>, dstFiller: seq<byte>): (s: seq<byte>)
    requires |h.src.bytes| + |srcFiller| == 16 && |h.dst.bytes| + |dstFiller| == 16
    ensures |s| == 48
  {
    Split(h.tableType) + (Split(h.ipType) + (Split(h.staticEntry) + (PutAddress(h.src, srcFiller)
      + (PutAddress(h.dst, dstFiller) + (Half(h.subnetMask) + Half(h.age))))))
  }

  /** The kinds that send a port and an application type. */
  const WITH_PORT: set<Kind> := {Http, Dns, SslL4, Udp, Tcp, Other}

  function PutPort(e: EntryRecord): seq<byte> {
    if e.kind in WITH_PORT then Half(e.port) + Half(e.appType) else []
  }

  function PutEntry(e: EntryRecord): seq<byte>
    requires EntryOk(e)
  {
    PutCommon(e.header, e.srcFiller, e.dstFiller) + (PutPort(e) + Longs(e.counters))
  }

  /** The 64-bit counters of the structures that a record is read into. */
  function FieldCount(k: Kind): nat {
    match k
    case Http => 119
    case Dns => 42
    case L4 => 165
    case L4Ext => 10
    case SslL4 => 24
    case Icmp => 7
    case Udp => 6
    case Tcp => 6
    case Other => 6
  }

  /** The fields afterwards: those that were sent, as far as there are fields for them, and
      the old values behind them. */
  function Filled(sent: seq<u64>, old64: seq<u64>): seq<u64> {
    if |sent| >= |old64| then sent[..|old64|] else sent + old64[|sent|..]
  }

  lemma AddressLies(a: Address, filler: seq<byte>, raw: seq<byte>, at: nat, ipType: u32)
    requires Lies(PutAddress(a, filler), raw, at) && |a.bytes| + |filler| == 16
    requires ipType == 1 ==> a.kind == 1 && |a.bytes| == 4
    requires ipType == 0 ==> a.kind == 2 && |a.bytes| == 16
    requires ipType < 2
    ensures AddressAt(raw, at, ipType) == a
  {
    LiesParts(a.bytes, filler, raw, at);
  }

  /** The header is read as it was sent. */
  lemma HeaderLies(h: Header, srcFiller: seq<byte>, dstFiller: seq<byte>, raw: seq<byte>, at: nat)
    requires HeaderOk(h) && |h.src.bytes| + |srcFiller| == 16 && |h.dst.bytes| + |dstFiller| == 16
    requires Lies(PutCommon(h, srcFiller, dstFiller), raw, at)
    ensures at + 48 <= |raw| && CommonEnd(raw, at) == Fine && HeaderAt(raw, at) == h
  {
    hide Lies, Split, Half, PutAddress, Word32, Word16, AddressAt;
    assert at + 48 <= |raw| by {
      InBuffer(PutCommon(h, srcFiller, dstFiller), raw, at);
    }
    var ages := Half(h.subnetMask) + Half(h.age);
    var dst := PutAddress(h.dst, dstFiller) + ages;
    AddressLen(h.src, srcFiller);
    AddressLen(h.dst, dstFiller);
    var src := PutAddress(h.src, srcFiller) + dst;
    LiesParts(Split(h.tableType), Split(h.ipType) + (Split(h.staticEntry) + src), raw, at);
    LiesParts(Split(h.ipType), Split(h.staticEntry) + src, raw, at + 4);
    LiesParts(Split(h.staticEntry), src, raw, at + 8);
    LiesParts(PutAddress(h.src, srcFiller), dst, raw, at + 12);
    LiesParts(PutAddress(h.dst, dstFiller), ages, raw, at + 28);
    LiesParts(Half(h.subnetMask), Half(h.age), raw, at + 44);
    WordLies(h.tableType, raw, at);
    WordLies(h.ipType, raw, at + 4);
    WordLies(h.staticEntry, raw, at + 8);
    AddressLies(h.src, srcFiller, raw, at + 12, h.ipType);
    AddressLies(h.dst, dstFiller, raw, at + 28, h.ipType);
    HalfLies(h.subnetMask, raw, at + 44);
    HalfLies(h.age, raw, at + 46);
  }

  /** A header that is all there ends fine exactly if its table type is one of three and its
      IP type one of two. */
  lemma TypesNamed(raw: seq<byte>, at: nat)
    requires at + 48 <= |raw|
    ensures CommonEnd(raw, at) == if Word32(raw, at) >= 3 || Word32(raw, at + 4) >= 2 then Outside(BadIndex) else Fine
  {
    hide Word32;
  }

  lemma InBuffer(bs: seq<byte>, raw: seq<byte>, at: nat)
    requires Lies(bs, raw, at)
    ensures at + |bs| <= |raw|
  {
  }

  lemma AddressLen(a: Address, filler: seq<byte>)
    ensures |PutAddress(a, filler)| == |a.bytes| + |filler|
  {
  }

  lemma ArrivedAt(sent: seq<u64>, raw: seq<byte>, at: nat, old64: seq<u64>, n: nat)
    requires at + 8 * |sent| <= |raw| && n == Min(|sent|, |old64|)
    requires forall i :: 0 <= i < |sent| ==> Word64(raw, at + 8 * i) == sent[i]
    ensures Arrived(old64, raw, at, n) == Filled(sent, old64)
  {
    hide Word64;
    var s := Arrived(old64, raw, at, n);
    forall i | 0 <= i < |old64|
      ensures s[i] == Filled(sent, old64)[i]
    {
      if i < n {
        assert s[i] == Word64(raw, at + 8 * i);
      }
    }
  }

  lemma Eights(n: nat)
    ensures 8 * n / 8 == n && 8 * n % 8 == 0
  {
  }

  lemma WholeFill(n: nat, raw: seq<byte>, at: nat, old64: seq<u64>)
    requires 0 < n && at + 8 * n <= |raw|
    ensures Fill64At(8 * n, raw, at, old64)
         == Fill(Fine, at + 8 * n, Arrived(old64, raw, at, Min(n, |old64|)))
  {
    hide Arrived;
    Eights(n);
  }

  /** What the counters come to. */
  lemma CountersLie(sent: seq<u64>, raw: seq<byte>, at: nat, old64: seq<u64>)
    requires Lies(Longs(sent), raw, at) && 0 < |sent|
    ensures Fill64At(8 * |sent|, raw, at, old64) == Fill(Fine, at + 8 * |sent|, Filled(sent, old64))
  {
    hide *;
    InBuffer(Longs(sent), raw, at);
    WholeFill(|sent|, raw, at, old64);
    LongsLie(sent, raw, at);
    ArrivedAt(sent, raw, at, old64, Min(|sent|, |old64|));
  }

  lemma PortLies(e: EntryRecord, raw: seq<byte>, at: nat)
    requires Lies(PutPort(e), raw, at)
    ensures |PutPort(e)| == if HasPort(e.kind) then 4 else 0
    ensures HasPort(e.kind) ==> at + 4 <= |raw| && Word16(raw, at) == e.port && Word16(raw, at + 2) == e.appType
  {
    hide Half, Word16;
    if e.kind in WITH_PORT {
      LiesParts(Half(e.port), Half(e.appType), raw, at);
      HalfLies(e.port, raw, at);
      HalfLies(e.appType, raw, at + 2);
    }
  }

  lemma EntryShape(e: EntryRecord)
    requires EntryOk(e)
    ensures HeaderOk(e.header) && 0 < |e.counters| < 8192 && Counters(e.kind) == FieldCount(e.kind)
    ensures |e.header.src.bytes| + |e.srcFiller| == 16 && |e.header.dst.bytes| + |e.dstFiller| == 16
    ensures PutEntry(e) == PutCommon(e.header, e.srcFiller, e.dstFiller) + (PutPort(e) + Longs(e.counters))
    ensures PerEntry.HeaderLen(e.kind) == 48 + |PutPort(e)| && HasPort(e.kind) == (e.kind in WITH_PORT)
    ensures |PutEntry(e)| == LenOf(e.kind, |e.counters|) && LenOf(e.kind, |e.counters|) < 0x1_0000_0000
  {
    hide HeaderOk, PutCommon, Half, Longs;
  }

  /** What a record of n counters comes to, if its header and its counters are read fine. */
  lemma EntryFrom(k: Kind, n: nat, raw: seq<byte>, at: nat, old64: seq<u64>)
    requires |old64| == Counters(k) && 0 < n < 8192 && LenOf(k, n) < 0x1_0000_0000 && at + LenOf(k, n) <= |raw|
    requires CommonEnd(raw, at) == Fine && ParseLen(k, LenOf(k, n)) == 8 * n
    requires Fill64At(8 * n, raw, at + PerEntry.HeaderLen(k), old64).sig.Fine?
    ensures var f := Fill64At(8 * n, raw, at + PerEntry.HeaderLen(k), old64);
            EntryAt(k, LenOf(k, n), raw, at, old64)
            == Entry(Fine, f.datap, HeaderAt(raw, at), if HasPort(k) then Word16(raw, at + 48) else 0,
                     if HasPort(k) then Word16(raw, at + 50) else 0, f.counters)
  {
    hide Word16, HeaderAt, Fill64At, Counters, ParseLen, CommonEnd;
  }

  /** Reading a record, wherever it lies, gives its header, its port and application type if
      its kind sends them, and its counters, and ends right behind it. */
  lemma EntryLies(e: EntryRecord, raw: seq<byte>, at: nat, old64: seq<u64>)
    requires EntryOk(e) && Lies(PutEntry(e), raw, at) && |old64| == FieldCount(e.kind)
    ensures |old64| == Counters(e.kind) && |PutEntry(e)| < 0x1_0000_0000
    ensures EntryAt(e.kind, |PutEntry(e)|, raw, at, old64)
         == Entry(Fine, at + |PutEntry(e)|, e.header,
                  if e.kind in WITH_PORT then e.port else 0, if e.kind in WITH_PORT then e.appType else 0,
                  Filled(e.counters, old64))
  {
    EntryShape(e);
    hide *;
    var n := |e.counters|;
    InBuffer(PutEntry(e), raw, at);
    LiesParts(PutCommon(e.header, e.srcFiller, e.dstFiller), PutPort(e) + Longs(e.counters), raw, at);
    LiesParts(PutPort(e), Longs(e.counters), raw, at + 48);
    HeaderLies(e.header, e.srcFiller, e.dstFiller, raw, at);
    PortLies(e, raw, at + 48);
    CountersLie(e.counters, raw, at + PerEntry.HeaderLen(e.kind), old64);
    WholeCounters(e.kind, n);
    EntryFrom(e.kind, n, raw, at, old64);
  }
}
