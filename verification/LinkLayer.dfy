/** The two link-layer decoders, one for sampled headers and one for captured
    frames, and the walk over IPv6 extension headers. Both decoders may look a few
    bytes past the end of the frame before they check its length, so memory is a
    function that has a byte at every offset. */
module LinkLayer {
  import opened Xdr

  type Memory = nat -> byte

  const ETHHDR_SIZ: nat := 14
  const MIN_SIZ: nat := 34
  const MAX_8023_LEN: nat := 1500
  const IPV4: u16 := 0x0800
  const IPV6: u16 := 0x86DD
  const VLAN: u16 := 0x8100
  const QINQ: u16 := 0x9100

  function Be16(mem: Memory, at: nat): u16 {
    (mem(at) as int) * 0x100 + mem(at + 1) as int
  }

  function Region(mem: Memory, at: nat, n: nat): seq<byte> {
    seq(n, i requires 0 <= i < n => mem(at + i))
  }

  /** The header length of the IPv4 header at an offset, in bytes. */
  function HeaderBytes(mem: Memory, at: nat): nat {
    4 * (mem(at) % 16)
  }

  // What both decoders look at behind the type field.

  /** An IPX packet with the usual checksum and a plausible length. */
  predicate Ipx(mem: Memory, at: nat, typeLen: u16) {
    && (typeLen == 0x0200 || typeLen == 0x0201 || typeLen == 0x0600)
    && mem(at) == 0xFF && mem(at + 1) == 0xFF
    && 30 <= Be16(mem, at + 2) <= 576
  }

  datatype Inner = Inner(at: nat, etherType: u16) | NoType

  /** Where the network header starts and of which type it is. */
  function InnerOf(mem: Memory, at: nat, typeLen: u16): (i: Inner)
    ensures i.Inner? ==> at <= i.at <= at + 8
  {
    if Ipx(mem, at, typeLen) then NoType
    else if typeLen > MAX_8023_LEN then Inner(at, typeLen)
    else if mem(at) == 0xAA && mem(at + 1) == 0xAA && mem(at + 2) == 3 then
      if mem(at + 3) == 0 && mem(at + 4) == 0 && mem(at + 5) == 0 then Inner(at + 8, Be16(mem, at + 6)) else NoType
    else if mem(at) == 6 && mem(at + 1) == 6 && mem(at + 2) % 2 == 1 then Inner(at + 3, IPV4)
    else NoType
  }

  // Sampled headers.

  /** What the decoder of sampled headers finds; the type is -1 if it stores none. */
  datatype Link = Link(etherType: int, ipv4: bool, ipv6: bool, offset: nat)

  const NOTHING := Link(-1, false, false, 0)

  /** The offset behind the type field, with one tag skipped. */
  function TypeEnd(mem: Memory): nat {
    if Be16(mem, 12) == VLAN then 18 else 14
  }

  function TypeAt(mem: Memory): u16 {
    Be16(mem, TypeEnd(mem) - 2)
  }

  predicate IsIpv4(mem: Memory, at: nat, etherType: u16, len: nat) {
    etherType == IPV4 && at + 20 <= len && mem(at) / 16 == 4 && mem(at) % 16 >= 5
  }

  predicate IsIpv6(mem: Memory, at: nat, etherType: u16) {
    etherType == IPV6 && mem(at) / 16 == 6
  }

  function LinkOf(mem: Memory, len: nat): (l: Link)
    ensures l.ipv4 ==> l.etherType == IPV4 && mem(l.offset) / 16 == 4
    ensures l.ipv4 ==> HeaderBytes(mem, l.offset) >= 20 && l.offset + 20 <= len
    ensures l.ipv6 ==> l.etherType == IPV6 && mem(l.offset) / 16 == 6 && l.offset + 8 <= len
  {
    if len < MIN_SIZ then NOTHING else
      match InnerOf(mem, TypeEnd(mem), TypeAt(mem))
      case NoType => NOTHING
      case Inner(at, t) =>
        var v4, v6 := IsIpv4(mem, at, t, len), IsIpv6(mem, at, t);
        Link(t, v4, v6, if v4 || v6 then at else 0)
  }

  // Captured frames.

  predicate Tagged(typeLen: u16) {
    typeLen == VLAN || typeLen == QINQ
  }

  /** Skips any number of tags; none is left if they run to the end. */
  function SkipTags(mem: Memory, at: nat, typeLen: u16, len: nat): (i: Inner)
    ensures i.Inner? ==> at <= i.at && !Tagged(i.etherType) && (at < i.at ==> i.at < len)
    decreases if at < len then len - at else 0
  {
    if !Tagged(typeLen) then Inner(at, typeLen)
    else if at + 4 >= len then NoType
    else SkipTags(mem, at + 4, Be16(mem, at + 2), len)
  }

  /** The bytes of the network header, as far as the type tells; none if the type
      and the header disagree. */
  function NetworkLen(mem: Memory, at: nat, etherType: u16): int {
    if etherType == IPV4 then if mem(at) / 16 == 4 && mem(at) % 16 >= 5 then HeaderBytes(mem, at) else -1
    else if etherType == IPV6 then if mem(at) / 16 == 6 then 40 else -1
    else 0
  }

  /** The offset behind the UDP header, or -1. */
  function PayloadAt(mem: Memory, len: nat): (r: int)
    ensures r < len && (r < 0 ==> r == -1)
  {
    if len < ETHHDR_SIZ then -1 else
      match SkipTags(mem, 14, Be16(mem, 12), len)
      case NoType => -1
      case Inner(p, t) =>
        if len - p < MIN_SIZ then -1 else
          match InnerOf(mem, p, t)
          case NoType => -1
          case Inner(at, e) =>
            var n := NetworkLen(mem, at, e);
            if n < 0 || at + n + 8 >= len then -1 else at + n + 8
  }

  // What else is stored.

  /** The addresses and the VLAN of a frame; -1 without a tag. */
  datatype Ethernet = Ethernet(dst: seq<byte>, src: seq<byte>, vlan: int)

  function EthernetOf(mem: Memory): Ethernet {
    Ethernet(Region(mem, 0, 6), Region(mem, 6, 6), if Be16(mem, 12) == VLAN then Be16(mem, 14) % 0x1000 else -1)
  }

  /** The fields of an IPv6 header; the protocol is -1 if the walk finds none. */
  datatype Ip6 = Ip6(src: seq<byte>, dst: seq<byte>, tos: nat, ttl: nat, protocol: int)

  function Ip6Of(mem: Memory, at: nat, end: nat): Ip6 {
    var e := Extensions(mem, at + 40, mem(at + 6), end);
    Ip6(Region(mem, at + 8, 16), Region(mem, at + 24, 16), mem(at) % 16, mem(at + 7),
        if e.Found? then e.protocol else -1)
  }

  // The decoders.

  class Header {
    const mem: Memory
    const headerLen: u32
    var ethDst: seq<byte>
    var ethSrc: seq<byte>
    var inVlan: int
    var ethType: u16
    var gotIPV4: bool
    var gotIPV6: bool
    var offsetToIPV4: nat
    var offsetToIPV6: nat
    var ipSrc: seq<byte>
    var ipDst: seq<byte>
    var ipTos: nat
    var ipTTL: nat
    var ipProtocol: int

    constructor (mem: Memory, headerLen: u32)
      ensures this.mem == mem && this.headerLen == headerLen && ethType == 0 && ipProtocol == -1 && inVlan == -1
    {
      this.mem, this.headerLen := mem, headerLen;
      inVlan, ethType, gotIPV4, gotIPV6, offsetToIPV4, offsetToIPV6 := -1, 0, false, false, 0, 0;
      ethDst, ethSrc, ipSrc, ipDst := [], [], [], [];
      ipTos, ipTTL, ipProtocol := 0, 0, -1;
    }

    method DecodeLinkLayer()
      modifies this`ethDst, this`ethSrc, this`inVlan, this`ethType
      modifies this`gotIPV4, this`gotIPV6, this`offsetToIPV4, this`offsetToIPV6
      ensures var l := LinkOf(mem, headerLen);
              && ethType == (if l.etherType < 0 then old(ethType) else l.etherType)
              && gotIPV4 == l.ipv4 && gotIPV6 == l.ipv6
              && (gotIPV4 ==> offsetToIPV4 == l.offset) && (gotIPV6 ==> offsetToIPV6 == l.offset)
      ensures headerLen < ETHHDR_SIZ ==> unchanged(this`inVlan, this`ethDst, this`ethSrc)
      ensures headerLen >= ETHHDR_SIZ ==>
                var e := EthernetOf(mem);
                ethDst == e.dst && ethSrc == e.src && inVlan == if e.vlan < 0 then old(inVlan) else e.vlan
    {
      hide InnerOf, Region;
      gotIPV4, gotIPV6 := false, false;
      if headerLen < ETHHDR_SIZ {
        return;
      }
      ethDst, ethSrc := Region(mem, 0, 6), Region(mem, 6, 6);
      var ptr := 12;
      var typeLen: u16 := Be16(mem, ptr);
      ptr := ptr + 2;
      if typeLen == 0x8100 {
        inVlan := Be16(mem, ptr) % 0x1000;
        ptr := ptr + 2;
        typeLen := Be16(mem, ptr);
        ptr := ptr + 2;
      }
      if headerLen < MIN_SIZ {
        return;
      }
      FindNetworkHeader(ptr, typeLen);
    }

    /** The part behind the type field. */
    method FindNetworkHeader(start: nat, kind: u16)
      requires start + 8 <= headerLen && !gotIPV4 && !gotIPV6
      modifies this`ethType, this`gotIPV4, this`gotIPV6, this`offsetToIPV4, this`offsetToIPV6
      ensures var i := InnerOf(mem, start, kind);
              && ethType == (if i.Inner? then i.etherType else old(ethType))
              && (gotIPV4 <==> i.Inner? && IsIpv4(mem, i.at, i.etherType, headerLen))
              && (gotIPV6 <==> i.Inner? && IsIpv6(mem, i.at, i.etherType))
              && (gotIPV4 ==> offsetToIPV4 == i.at) && (gotIPV6 ==> offsetToIPV6 == i.at)
    {
      var ptr, typeLen: u16 := start, kind;
      if typeLen == 0x0200 || typeLen == 0x0201 || typeLen == 0x0600 {
        var ipxLen := Be16(mem, ptr + 2);
        if mem(ptr) == 0xFF && mem(ptr + 1) == 0xFF && ipxLen >= 30 && ipxLen <= 30 + 546 {
          return;
        }
      }
      if typeLen <= MAX_8023_LEN {
        if mem(ptr) == 0xAA && mem(ptr + 1) == 0xAA && mem(ptr + 2) == 3 {
          ptr := ptr + 3;
          if mem(ptr) != 0 || mem(ptr + 1) != 0 || mem(ptr + 2) != 0 {
            return;
          }
          ptr := ptr + 3;
          typeLen := Be16(mem, ptr);
          ptr := ptr + 2;
        } else if mem(ptr) == 6 && mem(ptr + 1) == 6 && mem(ptr + 2) % 2 == 1 {
          ptr := ptr + 3;
          typeLen := 0x0800;
        } else {
          return;
        }
      }
      ethType := typeLen;
      if typeLen == 0x0800 {
        if headerLen - ptr < 20 || mem(ptr) / 16 != 4 || mem(ptr) % 16 < 5 {
          return;
        }
        gotIPV4, offsetToIPV4 := true, ptr;
      }
      if typeLen == 0x86DD {
        if mem(ptr) / 16 != 6 {
          return;
        }
        gotIPV6, offsetToIPV6 := true, ptr;
      }
    }

    /** Decodes the fixed IPv6 header and walks to the transport protocol. */
    method DecodeIPV6()
      modifies this`ipSrc, this`ipDst, this`ipTos, this`ipTTL, this`ipProtocol
      ensures !gotIPV6 || mem(offsetToIPV6) / 16 != 6 ==> unchanged(this)
      ensures gotIPV6 && mem(offsetToIPV6) / 16 == 6 ==>
                var i := Ip6Of(mem, offsetToIPV6, headerLen);
                && ipSrc == i.src && ipDst == i.dst && ipTos == i.tos && ipTTL == i.ttl
                && ipProtocol == if i.protocol < 0 then old(ipProtocol) else i.protocol
    {
      if !gotIPV6 || mem(offsetToIPV6) / 16 != 6 {
        return;
      }
      ipTos, ipTTL := mem(offsetToIPV6) % 16, mem(offsetToIPV6 + 7);
      ipSrc, ipDst := Region(mem, offsetToIPV6 + 8, 16), Region(mem, offsetToIPV6 + 24, 16);
      SkipExtensions(offsetToIPV6 + 40, mem(offsetToIPV6 + 6));
    }

    /** Stores the protocol behind the extension headers, unless they run off the header. */
    method SkipExtensions(start: nat, first: byte)
      modifies this`ipProtocol
      ensures var e := Extensions(mem, start, first, headerLen);
              ipProtocol == if e.Found? then e.protocol else old(ipProtocol)
    {
      var ptr, nextHeader: nat := start, first;
      ghost var all, passes: nat := Extensions(mem, ptr, nextHeader, headerLen), 0;
      while nextHeader == 0 || nextHeader == 43 || nextHeader == 44 || nextHeader == 51 || nextHeader == 60
        invariant all == MorePasses(Extensions(mem, ptr, nextHeader, headerLen), passes)
        decreases if ptr <= headerLen then headerLen - ptr else 0
      {
        passes := passes + 1;
        nextHeader := mem(ptr);
        var optionLen := 8 * (mem(ptr + 1) + 1);
        ptr := ptr + (optionLen - 2);
        if ptr > headerLen {
          return;
        }
      }
      ipProtocol := nextHeader;
    }
  }

  method PcapOffsetToSFlow(mem: Memory, len: nat) returns (r: int)
    ensures r == PayloadAt(mem, len)
  {
    if len < ETHHDR_SIZ {
      return -1;
    }
    var ptr := 12;
    var typeLen: u16 := Be16(mem, ptr);
    ptr := ptr + 2;
    while typeLen == 0x8100 || typeLen == 0x9100
      invariant 14 <= ptr <= len
      invariant SkipTags(mem, ptr, typeLen, len) == SkipTags(mem, 14, Be16(mem, 12), len)
      decreases len - ptr
    {
      ptr := ptr + 2;
      typeLen := Be16(mem, ptr);
      ptr := ptr + 2;
      if ptr >= len {
        return -1;
      }
    }
    if len - ptr < MIN_SIZ {
      return -1;
    }
    if typeLen == 0x0200 || typeLen == 0x0201 || typeLen == 0x0600 {
      var ipxLen := Be16(mem, ptr + 2);
      if mem(ptr) == 0xFF && mem(ptr + 1) == 0xFF && ipxLen >= 30 && ipxLen <= 30 + 546 {
        return -1;
      }
    }
    if typeLen <= MAX_8023_LEN {
      if mem(ptr) == 0xAA && mem(ptr + 1) == 0xAA && mem(ptr + 2) == 3 {
        ptr := ptr + 3;
        if mem(ptr) != 0 || mem(ptr + 1) != 0 || mem(ptr + 2) != 0 {
          return -1;
        }
        ptr := ptr + 3;
        typeLen := Be16(mem, ptr);
        ptr := ptr + 2;
      } else if mem(ptr) == 6 && mem(ptr + 1) == 6 && mem(ptr + 2) % 2 == 1 {
        ptr := ptr + 3;
        typeLen := 0x0800;
      } else {
        return -1;
      }
    }
    if ptr >= len {
      return -1;
    }
    if typeLen == 0x0800 {
      if len - ptr < 20 || mem(ptr) / 16 != 4 || mem(ptr) % 16 < 5 {
        return -1;
      }
      ptr := ptr + mem(ptr) % 16 * 4;
    }
    if typeLen == 0x86DD {
      if mem(ptr) / 16 != 6 {
        return -1;
      }
      ptr := ptr + 40;
    }
    ptr := ptr + 8;
    r := if ptr >= len then -1 else ptr;
  }

  // Agreement.

  /** No tag, or one 802.1Q tag around a type that is no tag. */
  predicate AtMostOneTag(mem: Memory) {
    if Be16(mem, 12) == VLAN then !Tagged(Be16(mem, 16)) else !Tagged(Be16(mem, 12))
  }

  /** What the decoder of sampled headers says about the payload of a UDP packet. */
  function PayloadOf(mem: Memory, l: Link): nat {
    l.offset + (if l.ipv4 then HeaderBytes(mem, l.offset) else 40) + 8
  }

  lemma TagsSkipped(mem: Memory, len: nat)
    requires AtMostOneTag(mem) && len >= ETHHDR_SIZ
    ensures SkipTags(mem, 14, Be16(mem, 12), len)
         == if TypeEnd(mem) == 18 && len <= 18 then NoType else Inner(TypeEnd(mem), TypeAt(mem))
  {
    if Be16(mem, 12) == VLAN && len > 18 {
      assert SkipTags(mem, 18, Be16(mem, 16), len) == Inner(18, Be16(mem, 16));
    }
  }

  /** Whenever one decoder finds the payload behind an IP header, the other one
      finds that header. */
  lemma PayloadMeansHeader(mem: Memory, len: nat)
    requires AtMostOneTag(mem) && PayloadAt(mem, len) >= 0
    ensures var l := LinkOf(mem, len);
            && (l.etherType == IPV4 <==> l.ipv4) && (l.etherType == IPV6 <==> l.ipv6)
            && (l.ipv4 || l.ipv6 ==> PayloadAt(mem, len) == PayloadOf(mem, l))
  {
    TagsSkipped(mem, len);
  }

  /** And the payload is found behind a header exactly when enough bytes follow the
      type field and the payload starts inside the frame. */
  lemma HeaderMeansPayload(mem: Memory, len: nat)
    requires AtMostOneTag(mem) && (LinkOf(mem, len).ipv4 || LinkOf(mem, len).ipv6)
    ensures var l := LinkOf(mem, len);
            PayloadAt(mem, len)
            == if TypeEnd(mem) + MIN_SIZ <= len && PayloadOf(mem, l) < len then PayloadOf(mem, l) else -1
  {
    TagsSkipped(mem, len);
  }

  /** Behind more than one tag, or a tag of the other type, only the decoder of
      captured frames looks for IP. */
  lemma MoreTagsHideIp(mem: Memory, len: nat)
    requires !AtMostOneTag(mem)
    ensures !LinkOf(mem, len).ipv4 && !LinkOf(mem, len).ipv6
  {
  }

  // Extension headers.

  predicate Extension(nextHeader: nat) {
    nextHeader == 0 || nextHeader == 43 || nextHeader == 44 || nextHeader == 51 || nextHeader == 60
  }

  datatype Walk = Found(protocol: nat, at: nat, passes: nat) | RanOff

  function MorePasses(w: Walk, n: nat): Walk {
    if w.Found? then w.(passes := w.passes + n) else RanOff
  }

  /** Follows the extension headers from `at` on. */
  function Extensions(mem: Memory, at: nat, nextHeader: nat, end: nat): (w: Walk)
    ensures w.Found? ==> !Extension(w.protocol) && at + 6 * w.passes <= w.at && (w.passes > 0 ==> w.at <= end)
    decreases if at <= end then end - at else 0
  {
    if !Extension(nextHeader) then Found(nextHeader, at, 0) else
      var next := at + 8 * (mem(at + 1) + 1) - 2;
      if next > end then RanOff else MorePasses(Extensions(mem, next, mem(at), end), 1)
  }

  /** One extension header on its way: its own type and its length field. */
  datatype Passed = Passed(kind: byte, len: byte)

  function KindOf(hs: seq<Passed>, last: byte): byte {
    if hs == [] then last else hs[0].kind
  }

  /** The headers as the walk meets them: the first byte of each is the type of the next one,
      the second one its length field, and the next one is looked for 8 bytes for every unit
      and 8 bytes further, less 2. */
  predicate Met(mem: Memory, at: nat, hs: seq<Passed>, last: byte)
    decreases |hs|
  {
    hs == [] ||
    (mem(at) == KindOf(hs[1..], last) && mem(at + 1) == hs[0].len && Met(mem, at + 8 * hs[0].len + 6, hs[1..], last))
  }

  function Behind(at: nat, hs: seq<Passed>): (b: nat)
    ensures b >= at
    decreases |hs|
  {
    if hs == [] then at else Behind(at + 8 * hs[0].len + 6, hs[1..])
  }

  /** The walk over any number of such headers stores the type behind the last one, unless
      that lies behind the end. */
  lemma {:induction false} WalkMeets(mem: Memory, at: nat, hs: seq<Passed>, last: byte, end: nat)
    requires Met(mem, at, hs, last)
    requires forall h :: h in hs ==> h.kind in {0, 43, 44, 51, 60}
    requires last !in {0, 43, 44, 51, 60}
    ensures Extensions(mem, at, KindOf(hs, last), end)
         == if hs == [] || Behind(at, hs) <= end then Found(last, Behind(at, hs), |hs|) else RanOff
    decreases |hs|
  {
    if hs == [] {
    } else {
      assert hs[0] in hs && forall h :: h in hs[1..] ==> h in hs;
      WalkMeets(mem, at + 8 * hs[0].len + 6, hs[1..], last, end);
    }
  }

  /** A header with a length field of n has 8n + 8 bytes (section 4 of RFC 8200), so the walk
      is two bytes early behind it. Behind one header the type is right all the same. */
  lemma OneHeader(mem: Memory, at: nat, kind: byte, last: byte, end: nat)
    requires kind in {0, 43, 44, 51, 60} && last !in {0, 43, 44, 51, 60} && mem(at) == last
    ensures var next := at + 8 * mem(at + 1) + 8;
            Extensions(mem, at, kind, end) == if next - 2 <= end then Found(last, next - 2, 1) else RanOff
  {
    var hs := [Passed(kind, mem(at + 1))];
    assert hs[1..] == [];
    WalkMeets(mem, at, hs, last, end);
  }

  /** Of a second header nothing is looked at in its place: the last two bytes of the first
      one are taken for its next type and its length. */
  lemma SecondHeader(mem: Memory, at: nat, kind: byte, end: nat)
    requires kind in {0, 43, 44, 51, 60} && mem(at) in {0, 43, 44, 51, 60}
    ensures var next := at + 8 * mem(at + 1) + 8;
            Extensions(mem, at, kind, end)
            == if next - 2 > end then RanOff
               else if next - 2 + 8 * mem(next - 1) + 6 > end then RanOff
               else MorePasses(Extensions(mem, next - 2 + 8 * mem(next - 1) + 6, mem(next - 2), end), 2)
  {
    var next := at + 8 * mem(at + 1) + 8;
    assert Extensions(mem, at, kind, end)
        == if next - 2 > end then RanOff else MorePasses(Extensions(mem, next - 2, mem(at), end), 1);
  }

  /** A hop-by-hop header and a destination options header, both of padding only, in front
      of a TCP header to port 80. */
  function TwoHeaders(): Memory {
    i => if i == 0 then 60 else if i == 8 then 6 else if i == 2 || i == 10 then 1 else if i == 3 || i == 11 then 4
         else if i == 19 then 80 else 0
  }

  /** The walk runs off such a packet of 36 bytes behind the fixed header, and stores no
      protocol where it should be 6. */
  lemma TwoHeadersMissed()
    ensures Extensions(TwoHeaders(), 0, 0, 36) == RanOff
  {
    hide Extensions;
    SecondHeader(TwoHeaders(), 0, 0, 36);
    SecondHeader(TwoHeaders(), 12, 0, 36);
  }
}
