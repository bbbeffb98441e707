/** What the link-layer decoders find in a frame, told from how the frame was put together
    (IEEE 802.3, 802.1Q and 802.2, RFC 894 and RFC 1042). */
module LinkFrames {
  import opened Xdr
  import opened LinkLayer

  /** The two bytes of a number, the higher one first. */
  function Pair(n: u16): seq<byte> {
    [n / 256, n % 256]
  }

  /** A VLAN tag: its type, and its priority and VLAN. */
  datatype Tag = Tag(tpid: u16, tci: u16)

  /** An Ethernet frame, as far as it was captured. The type field is a type above 1500,
      and a length otherwise. */
  datatype Frame = Frame(dst: seq<byte>, src: seq<byte>, tags: seq<Tag>, kind: u16, body: seq<byte>)

  predicate TagTypes(tags: seq<Tag>) {
    forall t :: t in tags ==> t.tpid == 0x8100 || t.tpid == 0x9100
  }

  predicate FrameOk(f: Frame) {
    |f.dst| == 6 && |f.src| == 6 && TagTypes(f.tags) && f.kind != 0x8100 && f.kind != 0x9100
  }

  function PutTags(tags: seq<Tag>): (s: seq<byte>)
    ensures |s| == 4 * |tags|
  {
    if tags == [] then [] else Pair(tags[0].tpid) + Pair(tags[0].tci) + PutTags(tags[1..])
  }

  function PutFrame(f: Frame): seq<byte> {
    f.dst + f.src + PutTags(f.tags) + Pair(f.kind) + f.body
  }

  /** The frame lies at the start of memory; what follows it is not known. */
  predicate Holds(mem: Memory, bs: seq<byte>) {
    forall i :: 0 <= i < |bs| ==> mem(i) == bs[i]
  }

  /** The body's bytes lie at an offset. */
  predicate LiesAt(mem: Memory, at: nat, bs: seq<byte>) {
    forall i :: 0 <= i < |bs| ==> mem(at + i) == bs[i]
  }

  // What bodies begin with.

  predicate Ipv4(bs: seq<byte>) {
    |bs| >= 20 && bs[0] / 16 == 4 && bs[0] % 16 >= 5
  }

  predicate Ipv6(bs: seq<byte>) {
    |bs| >= 1 && bs[0] / 16 == 6
  }

  predicate NovellIpx(kind: u16, bs: seq<byte>) {
    (kind == 0x0200 || kind == 0x0201 || kind == 0x0600) && |bs| >= 4 && bs[0] == 0xFF && bs[1] == 0xFF
    && 30 <= (bs[2] as int) * 256 + bs[3] as int <= 576
  }

  predicate Snap(bs: seq<byte>) {
    |bs| >= 8 && bs[0] == 0xAA && bs[1] == 0xAA && bs[2] == 0x03
  }

  predicate EthernetSnap(bs: seq<byte>) {
    Snap(bs) && bs[3] == 0 && bs[4] == 0 && bs[5] == 0
  }

  /** The service access point for IP, with unnumbered information. */
  predicate LlcIp(bs: seq<byte>) {
    |bs| >= 3 && bs[0] == 0x06 && bs[1] == 0x06 && bs[2] % 2 == 1
  }

  function SnapType(bs: seq<byte>): u16
    requires |bs| >= 8
  {
    (bs[6] as int) * 256 + bs[7] as int
  }

  // Where things are.

  lemma TypeBytes(n: u16)
    ensures (Pair(n)[0] as int) * 256 + Pair(n)[1] as int == n
  {
  }

  lemma PairHeld(n: u16, mem: Memory, at: nat)
    requires LiesAt(mem, at, Pair(n))
    ensures Be16(mem, at) == n
  {
    assert mem(at + 0) == Pair(n)[0] && mem(at + 1) == Pair(n)[1];
  }

  lemma LiesParts(a: seq<byte>, b: seq<byte>, mem: Memory, at: nat)
    requires LiesAt(mem, at, a + b)
    ensures LiesAt(mem, at, a) && LiesAt(mem, at + |a|, b)
  {
    forall i | 0 <= i < |a|
      ensures mem(at + i) == a[i]
    {
      assert (a + b)[i] == a[i];
    }
    forall i | 0 <= i < |b|
      ensures mem(at + |a| + i) == b[i]
    {
      assert (a + b)[|a| + i] == b[i] && mem(at + (|a| + i)) == (a + b)[|a| + i];
    }
  }

  lemma HoldsLies(mem: Memory, bs: seq<byte>)
    requires Holds(mem, bs)
    ensures LiesAt(mem, 0, bs)
  {
  }

  lemma Regrouped(a: seq<byte>, b: seq<byte>, c: seq<byte>, d: seq<byte>, e: seq<byte>)
    ensures a + b + c + d + e == (a + b) + ((c + d) + e)
  {
  }

  /** The tags, the type and the body of a frame. */
  lemma FrameParts(f: Frame, mem: Memory)
    requires FrameOk(f) && Holds(mem, PutFrame(f))
    ensures LiesAt(mem, 12, PutTags(f.tags) + Pair(f.kind))
    ensures Be16(mem, 12 + 4 * |f.tags|) == f.kind && LiesAt(mem, 14 + 4 * |f.tags|, f.body)
    ensures |PutFrame(f)| == 14 + 4 * |f.tags| + |f.body|
  {
    HoldsLies(mem, PutFrame(f));
    var tags, kind := PutTags(f.tags), Pair(f.kind);
    Regrouped(f.dst, f.src, tags, kind, f.body);
    hide LiesAt, PutTags, Pair, Holds, TagTypes;
    PairSize(f.kind);
    LiesParts(f.dst + f.src, (tags + kind) + f.body, mem, 0);
    LiesParts(tags + kind, f.body, mem, 12);
    LiesParts(tags, kind, mem, 12);
    PairHeld(f.kind, mem, 12 + 4 * |f.tags|);
  }

  // Sampled headers.

  /** No tag, or one of 802.1Q. */
  predicate AtMostOne(tags: seq<Tag>) {
    tags == [] || (|tags| == 1 && tags[0].tpid == 0x8100)
  }

  lemma OneTag(f: Frame, mem: Memory)
    requires FrameOk(f) && Holds(mem, PutFrame(f)) && AtMostOne(f.tags)
    ensures TypeEnd(mem) == 14 + 4 * |f.tags| && TypeAt(mem) == f.kind
    ensures f.tags != [] ==> Be16(mem, 12) == 0x8100 && Be16(mem, 14) == f.tags[0].tci
  {
    FrameParts(f, mem);
    hide LiesAt, PutFrame;
    if f.tags != [] {
      var t := f.tags[0];
      assert PutTags(f.tags) + Pair(f.kind) == Pair(t.tpid) + (Pair(t.tci) + Pair(f.kind));
      LiesParts(Pair(t.tpid), Pair(t.tci) + Pair(f.kind), mem, 12);
      LiesParts(Pair(t.tci), Pair(f.kind), mem, 14);
      PairHeld(t.tpid, mem, 12);
      PairHeld(t.tci, mem, 14);
    }
  }

  lemma InnerBytes(mem: Memory, at: nat, bs: seq<byte>)
    requires LiesAt(mem, at, bs)
    ensures forall i :: 0 <= i < |bs| ==> mem(at + i) == bs[i]
    ensures |bs| >= 1 ==> mem(at) == bs[0]
    ensures |bs| >= 4 ==> Be16(mem, at + 2) == (bs[2] as int) * 256 + bs[3] as int
    ensures |bs| >= 8 ==> Be16(mem, at + 6) == (bs[6] as int) * 256 + bs[7] as int
  {
    if |bs| >= 1 {
      assert mem(at + 0) == bs[0];
    }
  }

  /** What a body comes to, wherever it lies: the type of the network header and how far
      it lies behind the type field. */
  lemma BodyMeans(kind: u16, bs: seq<byte>, mem: Memory, at: nat)
    requires LiesAt(mem, at, bs) && |bs| >= 8
    ensures NovellIpx(kind, bs) ==> InnerOf(mem, at, kind) == NoType
    ensures kind > 1500 && !NovellIpx(kind, bs) ==> InnerOf(mem, at, kind) == Inner(at, kind)
    ensures kind <= 1500 && EthernetSnap(bs) ==> InnerOf(mem, at, kind) == Inner(at + 8, SnapType(bs))
    ensures kind <= 1500 && LlcIp(bs) ==> InnerOf(mem, at, kind) == Inner(at + 3, 0x0800)
    ensures kind <= 1500 && !EthernetSnap(bs) && !LlcIp(bs) ==> InnerOf(mem, at, kind) == NoType
  {
    InnerBytes(mem, at, bs);
    hide Be16, LiesAt;
  }

  /** What the decoder of sampled headers finds behind a type of its own at an offset. */
  lemma HeaderFound(t: u16, bs: seq<byte>, mem: Memory, at: nat, n: nat)
    requires LiesAt(mem, at, bs) && |bs| >= 1 && n == at + |bs|
    ensures IsIpv4(mem, at, t, n) <==> t == 0x0800 && Ipv4(bs)
    ensures IsIpv6(mem, at, t) <==> t == 0x86DD && Ipv6(bs)
  {
    assert mem(at + 0) == bs[0];
  }

  /** What there is behind a type: the type, and the IP header if it is one. */
  function Found(t: u16, bs: seq<byte>, at: nat): Link {
    if t == 0x0800 && Ipv4(bs) then Link(0x0800, true, false, at)
    else if t == 0x86DD && Ipv6(bs) then Link(0x86DD, false, true, at)
    else Link(t, false, false, 0)
  }

  lemma LiesBehind(mem: Memory, at: nat, bs: seq<byte>, k: nat)
    requires LiesAt(mem, at, bs) && k <= |bs|
    ensures LiesAt(mem, at + k, bs[k..])
  {
    hide LiesAt;
    assert bs == bs[..k] + bs[k..];
    LiesParts(bs[..k], bs[k..], mem, at);
  }

  lemma LinkFound(mem: Memory, n: nat, at: nat, t: u16, bs: seq<byte>)
    requires n >= 34 && InnerOf(mem, TypeEnd(mem), TypeAt(mem)) == Inner(at, t)
    requires LiesAt(mem, at, bs) && |bs| >= 1 && n == at + |bs|
    ensures LinkOf(mem, n) == Found(t, bs, at)
  {
    hide InnerOf, LiesAt, IsIpv4, IsIpv6, Ipv4, Ipv6;
    HeaderFound(t, bs, mem, at, n);
  }

  lemma TagCount(tags: seq<Tag>)
    requires AtMostOne(tags)
    ensures |tags| == if tags == [] then 0 else 1
  {
  }

  lemma NothingFound(mem: Memory, n: nat)
    requires InnerOf(mem, TypeEnd(mem), TypeAt(mem)) == NoType
    ensures LinkOf(mem, n) == Link(-1, false, false, 0)
  {
    hide InnerOf;
  }

  lemma SampledInner(f: Frame, mem: Memory, k: nat, t: u16)
    requires FrameOk(f) && Holds(mem, PutFrame(f)) && AtMostOne(f.tags) && |PutFrame(f)| >= 34 && k <= 8
    requires InnerOf(mem, 14 + 4 * |f.tags|, f.kind) == Inner(14 + 4 * |f.tags| + k, t)
    ensures |f.body| >= 16 && LinkOf(mem, |PutFrame(f)|) == Found(t, f.body[k..], 14 + 4 * |f.tags| + k)
  {
    hide *;
    FrameParts(f, mem);
    OneTag(f, mem);
    TagCount(f.tags);
    var at := 14 + 4 * |f.tags|;
    LiesBehind(mem, at, f.body, k);
    LinkFound(mem, |PutFrame(f)|, at + k, t, f.body[k..]);
  }

  /** In every frame without a tag or with one 0x8100 tag, of which at least 34 bytes were
      captured, the decoder of sampled headers finds IPv4 (type 0x0800) or IPv6 (0x86DD)
      behind the type field, that is at 14, or at 18 behind a tag; behind a SNAP header 8
      bytes further, and behind an LLC header for IP 3 bytes further. It finds no type in
      IPX packets, behind other organisations and in all other 802.3 frames. */
  lemma SampledFrame(f: Frame, mem: Memory)
    requires FrameOk(f) && Holds(mem, PutFrame(f)) && AtMostOne(f.tags) && |PutFrame(f)| >= 34
    ensures var at, l := if f.tags == [] then 14 else 18, LinkOf(mem, |PutFrame(f)|);
            && |f.body| >= 16
            && (f.kind > 1500 && !NovellIpx(f.kind, f.body) ==> l == Found(f.kind, f.body, at))
            && (f.kind <= 1500 && EthernetSnap(f.body) ==> l == Found(SnapType(f.body), f.body[8..], at + 8))
            && (f.kind <= 1500 && LlcIp(f.body) ==> l == Found(0x0800, f.body[3..], at + 3))
            && (NovellIpx(f.kind, f.body) ==> l == Link(-1, false, false, 0))
            && (f.kind <= 1500 && !EthernetSnap(f.body) && !LlcIp(f.body) ==> l == Link(-1, false, false, 0))
  {
    hide *;
    FrameParts(f, mem);
    OneTag(f, mem);
    TagCount(f.tags);
    var at := 14 + 4 * |f.tags|;
    BodyMeans(f.kind, f.body, mem, at);
    if NovellIpx(f.kind, f.body) {
      NothingFound(mem, |PutFrame(f)|);
    } else if f.kind > 1500 {
      assert f.body[0..] == f.body;
      SampledInner(f, mem, 0, f.kind);
    } else if EthernetSnap(f.body) {
      SampledInner(f, mem, 8, SnapType(f.body));
    } else if LlcIp(f.body) {
      SampledInner(f, mem, 3, 0x0800);
    } else {
      NothingFound(mem, |PutFrame(f)|);
    }
    NotBoth(f.kind, f.body);
  }

  lemma RegionHeld(mem: Memory, at: nat, bs: seq<byte>)
    requires LiesAt(mem, at, bs)
    ensures Region(mem, at, |bs|) == bs
  {
  }

  /** In any frame, whatever its tags, type and body: both addresses, and the VLAN of an
      outermost 802.1Q tag. */
  lemma AddressesFound(f: Frame, mem: Memory)
    requires FrameOk(f) && Holds(mem, PutFrame(f))
    ensures EthernetOf(mem)
         == Ethernet(f.dst, f.src, if f.tags != [] && f.tags[0].tpid == 0x8100 then f.tags[0].tci % 4096 else -1)
  {
    AddressBytes(f, mem);
    FrameParts(f, mem);
    OuterTag(f, mem);
    hide LiesAt, Pair, Holds, PutFrame, PutTags, FrameOk, Region, Be16;
  }

  lemma OuterTag(f: Frame, mem: Memory)
    requires FrameOk(f) && LiesAt(mem, 12, PutTags(f.tags) + Pair(f.kind))
    requires Be16(mem, 12 + 4 * |f.tags|) == f.kind
    ensures Be16(mem, 12) == VLAN <==> f.tags != [] && f.tags[0].tpid == 0x8100
    ensures f.tags != [] ==> Be16(mem, 14) == f.tags[0].tci
  {
    hide LiesAt, Pair, PutTags, Be16;
    if f.tags != [] {
      FirstTag(f.tags, f.kind, mem, 12);
    }
  }

  lemma AddressBytes(f: Frame, mem: Memory)
    requires FrameOk(f) && Holds(mem, PutFrame(f))
    ensures Region(mem, 0, 6) == f.dst && Region(mem, 6, 6) == f.src
  {
    HoldsLies(mem, PutFrame(f));
    var rest := PutTags(f.tags) + Pair(f.kind) + f.body;
    assert PutFrame(f) == f.dst + (f.src + rest);
    hide LiesAt, Pair, Holds, PutFrame, PutTags, Region;
    LiesParts(f.dst, f.src + rest, mem, 0);
    LiesParts(f.src, rest, mem, 6);
    RegionHeld(mem, 0, f.dst);
    RegionHeld(mem, 6, f.src);
  }

  lemma FirstTag(tags: seq<Tag>, kind: u16, mem: Memory, at: nat)
    requires tags != [] && LiesAt(mem, at, PutTags(tags) + Pair(kind))
    ensures Be16(mem, at) == tags[0].tpid && Be16(mem, at + 2) == tags[0].tci
  {
    var t, rest := tags[0], PutTags(tags[1..]) + Pair(kind);
    assert PutTags(tags) + Pair(kind) == Pair(t.tpid) + (Pair(t.tci) + rest);
    PairSize(t.tpid);
    PairSize(t.tci);
    hide LiesAt, Pair, PutTags, Be16;
    LiesParts(Pair(t.tpid), Pair(t.tci) + rest, mem, at);
    LiesParts(Pair(t.tci), rest, mem, at + 2);
    PairHeld(t.tpid, mem, at);
    PairHeld(t.tci, mem, at + 2);
  }

  /** An IPv6 header (RFC 8200, section 3). */
  datatype Ip6Header = Ip6Header(trafficClass: byte, flow: nat, len: u16, next: byte, hops: byte,
                                 src: seq<byte>, dst: seq<byte>)

  predicate Ip6HeaderOk(h: Ip6Header) {
    h.flow < 0x10_0000 && |h.src| == 16 && |h.dst| == 16
  }

  /** Version, class and flow label share four bytes. */
  function PutIp6(h: Ip6Header): seq<byte>
    requires Ip6HeaderOk(h)
  {
    [6 * 16 + h.trafficClass / 16, h.trafficClass % 16 * 16 + h.flow / 65536, h.flow / 256 % 256, h.flow % 256]
    + Pair(h.len) + [h.next, h.hops] + h.src + h.dst
  }

  /** Of an IPv6 header both addresses, the hop limit and the upper half of the traffic class
      are stored, and the protocol if no extension header follows it. */
  lemma Ip6Fields(h: Ip6Header, mem: Memory, at: nat, end: nat)
    requires Ip6HeaderOk(h) && LiesAt(mem, at, PutIp6(h))
    ensures mem(at) / 16 == 6
    ensures Ip6Of(mem, at, end).(protocol := 0) == Ip6(h.src, h.dst, h.trafficClass / 16, h.hops, 0)
    ensures h.next !in {0, 43, 44, 51, 60} ==> Ip6Of(mem, at, end).protocol == h.next
    ensures mem(at + 6) == h.next
  {
    var front := [6 * 16 + h.trafficClass / 16, h.trafficClass % 16 * 16 + h.flow / 65536, h.flow / 256 % 256,
                  h.flow % 256] + Pair(h.len) + [h.next, h.hops];
    assert PutIp6(h) == front + (h.src + h.dst);
    LiesParts(front, h.src + h.dst, mem, at);
    LiesParts(h.src, h.dst, mem, at + 8);
    RegionHeld(mem, at + 8, h.src);
    RegionHeld(mem, at + 24, h.dst);
    assert mem(at + 0) == front[0] && mem(at + 6) == front[6] && mem(at + 7) == front[7];
  }

  /** Fewer bytes are not looked at. */
  lemma ShortFrame(f: Frame, mem: Memory)
    requires |PutFrame(f)| < 34
    ensures LinkOf(mem, |PutFrame(f)|) == Link(-1, false, false, 0)
  {
  }

  // Captured frames.

  lemma TagsFollow(tags: seq<Tag>, kind: u16, mem: Memory, at: nat)
    requires tags != [] && LiesAt(mem, at, PutTags(tags) + Pair(kind))
    ensures Be16(mem, at) == tags[0].tpid && LiesAt(mem, at + 4, PutTags(tags[1..]) + Pair(kind))
  {
    hide LiesAt, Pair;
    var rest := PutTags(tags[1..]) + Pair(kind);
    assert PutTags(tags) + Pair(kind) == Pair(tags[0].tpid) + (Pair(tags[0].tci) + rest);
    PairSize(tags[0].tpid);
    PairSize(tags[0].tci);
    LiesParts(Pair(tags[0].tpid), Pair(tags[0].tci) + rest, mem, at);
    LiesParts(Pair(tags[0].tci), rest, mem, at + 2);
    PairHeld(tags[0].tpid, mem, at);
  }

  lemma PairSize(n: u16)
    ensures |Pair(n)| == 2
  {
  }

  /** All tags are skipped, whatever their number, while bytes are left behind them. */
  lemma {:induction false} TagsSkippedAll(tags: seq<Tag>, kind: u16, mem: Memory, at: nat, n: nat)
    requires TagTypes(tags) && kind != 0x8100 && kind != 0x9100
    requires LiesAt(mem, at, PutTags(tags) + Pair(kind)) && at + 2 + 4 * |tags| < n
    ensures SkipTags(mem, at + 2, Be16(mem, at), n) == Inner(at + 2 + 4 * |tags|, kind)
    decreases |tags|
  {
    hide LiesAt, Pair, Be16;
    if tags == [] {
      assert PutTags(tags) + Pair(kind) == Pair(kind);
      PairHeld(kind, mem, at);
    } else {
      assert tags[0] in tags && forall t :: t in tags[1..] ==> t in tags;
      TagsFollow(tags, kind, mem, at);
      TagsSkippedAll(tags[1..], kind, mem, at + 4, n);
    }
  }

  /** The offset behind a UDP header that follows a type at an offset, if it is in the frame. */
  function Payload(t: u16, bs: seq<byte>, at: nat, n: nat): int {
    var skipped: int :=
      if t == 0x0800 then if Ipv4(bs) then 4 * (bs[0] % 16) else -1
      else if t == 0x86DD then if Ipv6(bs) then 40 else -1
      else 0;
    if skipped >= 0 && at + skipped + 8 < n then at + skipped + 8 else -1
  }

  lemma NetworkFound(t: u16, bs: seq<byte>, mem: Memory, at: nat)
    requires LiesAt(mem, at, bs) && |bs| >= 20
    ensures NetworkLen(mem, at, t)
         == if t == 0x0800 then if Ipv4(bs) then 4 * (bs[0] % 16) else -1
            else if t == 0x86DD then if Ipv6(bs) then 40 else -1 else 0
  {
    assert mem(at + 0) == bs[0];
  }

  lemma PayloadFound(mem: Memory, n: nat, p: nat, kind: u16, at: nat, t: u16, bs: seq<byte>)
    requires n >= 14 && n - p >= 34 && SkipTags(mem, 14, Be16(mem, 12), n) == Inner(p, kind)
    requires InnerOf(mem, p, kind) == Inner(at, t) && LiesAt(mem, at, bs) && |bs| >= 20
    ensures PayloadAt(mem, n) == Payload(t, bs, at, n)
  {
    hide InnerOf, LiesAt, SkipTags, NetworkLen, Ipv4, Ipv6, Be16;
    NetworkFound(t, bs, mem, at);
  }

  lemma NoPayload(mem: Memory, n: nat, p: nat, kind: u16)
    requires n >= 14 && SkipTags(mem, 14, Be16(mem, 12), n) == Inner(p, kind)
    requires n - p < 34 || InnerOf(mem, p, kind) == NoType
    ensures PayloadAt(mem, n) == -1
  {
    hide InnerOf, SkipTags, NetworkLen, Be16;
  }

  lemma KindOf(f: Frame)
    requires FrameOk(f)
    ensures TagTypes(f.tags) && f.kind != 0x8100 && f.kind != 0x9100
  {
  }

  /** The type and the body of a captured frame, behind all its tags. */
  lemma CapturedParts(f: Frame, mem: Memory)
    requires FrameOk(f) && Holds(mem, PutFrame(f)) && |f.body| >= 34
    ensures LiesAt(mem, 14 + 4 * |f.tags|, f.body) && |PutFrame(f)| == 14 + 4 * |f.tags| + |f.body|
    ensures SkipTags(mem, 14, Be16(mem, 12), |PutFrame(f)|) == Inner(14 + 4 * |f.tags|, f.kind)
  {
    KindOf(f);
    hide *;
    FrameParts(f, mem);
    TagsSkippedAll(f.tags, f.kind, mem, 12, |PutFrame(f)|);
  }

  lemma CapturedInner(f: Frame, mem: Memory, k: nat, t: u16)
    requires FrameOk(f) && Holds(mem, PutFrame(f)) && |f.body| >= 34 && k <= 8
    requires InnerOf(mem, 14 + 4 * |f.tags|, f.kind) == Inner(14 + 4 * |f.tags| + k, t)
    ensures PayloadAt(mem, |PutFrame(f)|) == Payload(t, f.body[k..], 14 + 4 * |f.tags| + k, |PutFrame(f)|)
  {
    hide *;
    CapturedParts(f, mem);
    var at := 14 + 4 * |f.tags|;
    LiesBehind(mem, at, f.body, k);
    PayloadFound(mem, |PutFrame(f)|, at, f.kind, at + k, t, f.body[k..]);
  }

  /** In every frame, behind any number of tags of either type, the payload is behind the
      IP header and 8 bytes for UDP. If fewer than 34 bytes follow the type field, in IPX
      packets, behind other organisations and in all other 802.3 frames there is none. */
  lemma CapturedFrame(f: Frame, mem: Memory)
    requires FrameOk(f) && Holds(mem, PutFrame(f)) && |f.body| >= 34
    ensures var at, n := 14 + 4 * |f.tags|, |PutFrame(f)|;
            var r := PayloadAt(mem, n);
            && (f.kind > 1500 && !NovellIpx(f.kind, f.body) ==> r == Payload(f.kind, f.body, at, n))
            && (f.kind <= 1500 && EthernetSnap(f.body) ==> r == Payload(SnapType(f.body), f.body[8..], at + 8, n))
            && (f.kind <= 1500 && LlcIp(f.body) ==> r == Payload(0x0800, f.body[3..], at + 3, n))
            && (NovellIpx(f.kind, f.body) ==> r == -1)
            && (f.kind <= 1500 && !EthernetSnap(f.body) && !LlcIp(f.body) ==> r == -1)
  {
    hide *;
    var at := 14 + 4 * |f.tags|;
    CapturedParts(f, mem);
    BodyMeans(f.kind, f.body, mem, at);
    if NovellIpx(f.kind, f.body) {
      NoPayload(mem, |PutFrame(f)|, at, f.kind);
    } else if f.kind > 1500 {
      assert f.body[0..] == f.body;
      CapturedInner(f, mem, 0, f.kind);
    } else if EthernetSnap(f.body) {
      CapturedInner(f, mem, 8, SnapType(f.body));
    } else if LlcIp(f.body) {
      CapturedInner(f, mem, 3, 0x0800);
    } else {
      NoPayload(mem, |PutFrame(f)|, at, f.kind);
    }
    NotBoth(f.kind, f.body);
  }

  lemma NotBoth(kind: u16, bs: seq<byte>)
    ensures NovellIpx(kind, bs) ==> !EthernetSnap(bs) && !LlcIp(bs)
    ensures !(EthernetSnap(bs) && LlcIp(bs))
  {
  }

  lemma {:induction false} TagsSkippedAny(tags: seq<Tag>, kind: u16, mem: Memory, at: nat, n: nat)
    requires TagTypes(tags) && kind != 0x8100 && kind != 0x9100
    requires LiesAt(mem, at, PutTags(tags) + Pair(kind))
    ensures var i := SkipTags(mem, at + 2, Be16(mem, at), n); i == NoType || i == Inner(at + 2 + 4 * |tags|, kind)
    decreases |tags|
  {
    hide LiesAt, Pair, Be16;
    if tags == [] {
      assert PutTags(tags) + Pair(kind) == Pair(kind);
      PairHeld(kind, mem, at);
    } else {
      assert tags[0] in tags && forall t :: t in tags[1..] ==> t in tags;
      TagsFollow(tags, kind, mem, at);
      TagsSkippedAny(tags[1..], kind, mem, at + 4, n);
    }
  }

  lemma ShortCapture(f: Frame, mem: Memory)
    requires FrameOk(f) && Holds(mem, PutFrame(f)) && |f.body| < 34
    ensures PayloadAt(mem, |PutFrame(f)|) == -1
  {
    FrameParts(f, mem);
    hide InnerOf, LiesAt, Holds, PutFrame, SkipTags, Be16, TagTypes, PutTags, Pair;
    TagsSkippedAny(f.tags, f.kind, mem, 12, |PutFrame(f)|);
    if SkipTags(mem, 14, Be16(mem, 12), |PutFrame(f)|).Inner? {
      NoPayload(mem, |PutFrame(f)|, 14 + 4 * |f.tags|, f.kind);
    }
  }
}
