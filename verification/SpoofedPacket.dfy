/** The send buffer for spoofed NetFlow datagrams: an IP header, a UDP header and
    room for data, and the pseudo-header that is laid over the IP header while
    the UDP checksum is computed. */
module SpoofedPacket {
  import opened Xdr
  import opened InternetChecksum

  const IP_LEN: nat := 20
  const DATA_AT: nat := 28
  const ROOM: nat := 2000
  const UDP: byte := 17

  /** A number in network byte order. */
  function Be(v: u16): (s: seq<byte>)
    ensures |s| == 2
  {
    [v / 0x100, v % 0x100]
  }

  /** A number as a little-endian host stores it. */
  function LeBytes(v: u16): (s: seq<byte>)
    ensures |s| == 2 && Le(s[0], s[1]) == v
  {
    [v % 0x100, v / 0x100]
  }

  /** The buffer s with bs laid over it at `at`. */
  function Patch(s: seq<byte>, at: nat, bs: seq<byte>): (r: seq<byte>)
    requires at + |bs| <= |s|
    ensures |r| == |s|
  {
    s[..at] + bs + s[at + |bs|..]
  }

  /** What goes in front of a UDP datagram of `len` bytes for its checksum (RFC 768). */
  function Pseudo(ip: seq<byte>, len: u16): (h: seq<byte>)
    requires |ip| == IP_LEN
    ensures |h| == 12
  {
    ip[12..20] + [0, UDP] + Be(len)
  }

  /** The packet with its length, identification and source fields set and the data
      in place, before any checksum. */
  function Filled(was: seq<byte>, payload: seq<byte>, agent: seq<byte>, id: u16): (p: seq<byte>)
    requires |was| == DATA_AT + ROOM && |payload| <= ROOM && |agent| == 4
    ensures |p| == |was|
  {
    was[..2] + Be(|payload| + DATA_AT) + Be(id) + was[6..12] + agent + was[16..24] + Be(|payload| + 8)
    + was[26..28] + payload + was[DATA_AT + |payload|..]
  }

  lemma FilledParts(was: seq<byte>, payload: seq<byte>, agent: seq<byte>, id: u16)
    requires |was| == DATA_AT + ROOM && |payload| <= ROOM && |agent| == 4
    ensures var p := Filled(was, payload, agent, id);
            && p[10..12] == was[10..12] && p[24..26] == Be(|payload| + 8) && p[2..4] == Be(|payload| + DATA_AT)
  {
  }

  lemma PatchesFill(was: seq<byte>, payload: seq<byte>, agent: seq<byte>, id: u16)
    requires |was| == DATA_AT + ROOM && |payload| <= ROOM && |agent| == 4
    ensures var identified := Patch(Patch(was, DATA_AT, payload), 4, Be(id));
            Patch(Patch(Patch(identified, 2, Be(|payload| + DATA_AT)), 24, Be(|payload| + 8)), 12, agent)
            == Filled(was, payload, agent, id)
  {
    hide Be, Patch;
    var tot, ulen := Be(|payload| + DATA_AT), Be(|payload| + 8);
    var rest := payload + was[DATA_AT + |payload|..];
    PatchAt(was, was[..DATA_AT], payload, was[DATA_AT + |payload|..]);
    var a := was[..DATA_AT] + payload + was[DATA_AT + |payload|..];
    PatchAt(a, was[..4], Be(id), was[6..DATA_AT] + rest);
    var b := was[..4] + Be(id) + (was[6..DATA_AT] + rest);
    PatchAt(b, was[..2], tot, Be(id) + was[6..DATA_AT] + rest);
    var c := was[..2] + tot + (Be(id) + was[6..DATA_AT] + rest);
    assert c == was[..2] + tot + Be(id) + was[6..24] + was[24..26] + (was[26..28] + rest);
    PatchAt(c, was[..2] + tot + Be(id) + was[6..24], ulen, was[26..28] + rest);
    var d := was[..2] + tot + Be(id) + was[6..24] + ulen + (was[26..28] + rest);
    PatchAt(d, was[..2] + tot + Be(id) + was[6..12], agent, was[16..24] + ulen + was[26..28] + rest);
    assert was[..2] + tot + Be(id) + was[6..12] + agent + (was[16..24] + ulen + was[26..28] + rest)
        == Filled(was, payload, agent, id);
  }

  /** A patch of a buffer in three parts. */
  lemma PatchAt(s: seq<byte>, front: seq<byte>, bs: seq<byte>, back: seq<byte>)
    requires |s| == |front| + |bs| + |back| && s[..|front|] == front && s[|front| + |bs|..] == back
    ensures Patch(s, |front|, bs) == front + bs + back
  {
  }

  /** Laying the pseudo-header and then the saved bytes over the header leaves only
      the checksum that was stored in between. */
  lemma Restored(p: seq<byte>, h: seq<byte>, z: seq<byte>, c: seq<byte>)
    requires |p| >= DATA_AT && |h| == 12 && |z| == 2 && |c| == 2
    ensures Patch(Patch(Patch(Patch(p, 8, h), 26, z), 26, c), 8, p[8..20]) == Patch(p, 26, c)
  {
    var a := Patch(Patch(p, 8, h), 26, z);
    assert Patch(a, 26, c) == p[..8] + h + p[20..26] + c + p[28..];
  }

  /** The bytes that the UDP checksum covers while the pseudo-header is in place. */
  lemma Covered(p: seq<byte>, h: seq<byte>, z: seq<byte>, end: nat)
    requires DATA_AT <= end <= |p| && |h| == 12 && |z| == 2
    ensures Patch(Patch(p, 8, h), 26, z)[8..end] == (h + p[20..26]) + z + p[28..end]
  {
    assert Patch(Patch(p, 8, h), 26, z) == p[..8] + h + p[20..26] + z + p[28..];
  }

  /** A buffer whose checksum field held x while it was summed, and then got the
      result, checks to zero exactly if x is one of the two zeros. */
  lemma ChecksumStored(a: seq<byte>, x: seq<byte>, b: seq<byte>)
    requires |a| % 2 == 0 && |x| == 2 && WordSum(a) + WordSum(b) > 0
    ensures Checksum(a + LeBytes(Sent(Checksum(a + x + b))) + b) == 0
       <==> Le(x[0], x[1]) == 0 || Le(x[0], x[1]) == 0xFFFF
  {
    hide WordSum, Le, LeBytes, Sent, Checksum;
    var c := LeBytes(Sent(Checksum(a + x + b)));
    SumWith(a, x, b);
    SumWith(a, c, b);
    ChecksumOfSum(a + x + b, a + c + b, WordSum(a) + WordSum(b), Le(x[0], x[1]));
  }

  lemma ChecksumOfSum(before: seq<byte>, after: seq<byte>, s: nat, x: u16)
    requires s > 0 && WordSum(before) == s + x && WordSum(after) == s + Sent(Checksum(before))
    ensures Checksum(after) == 0 <==> x == 0 || x == 0xFFFF
  {
    hide WordSum, Fold, Sent;
    Rechecks(s, x);
  }

  lemma SumWith(a: seq<byte>, x: seq<byte>, b: seq<byte>)
    requires |a| % 2 == 0 && |x| == 2
    ensures WordSum(a + x + b) == WordSum(a) + WordSum(b) + Le(x[0], x[1])
  {
    assert x == [x[0], x[1]];
    SumAround(a, x[0], x[1], b);
  }

  lemma {:induction false} NonZeroSum(bs: seq<byte>, i: nat)
    requires i < |bs| && bs[i] > 0
    ensures WordSum(bs) > 0
  {
    if i < 2 {
    } else {
      NonZeroSum(bs[2..], i - 2);
    }
  }

  /** The packet once its IP header checksum is stored. */
  function Headed(p: seq<byte>): (q: seq<byte>)
    requires |p| >= DATA_AT
    ensures |q| == |p|
  {
    Patch(p, 10, LeBytes(Sent(Checksum(p[..IP_LEN]))))
  }

  /** What the UDP checksum of a packet is computed over. */
  function Summed(p: seq<byte>, len: u16): seq<byte>
    requires |p| >= DATA_AT && 8 <= len && 20 + len <= |p|
  {
    Pseudo(p[..IP_LEN], len) + p[20..26] + [0, 0] + p[28..20 + len]
  }

  /** The packet that is sent. */
  function Packet(was: seq<byte>, payload: seq<byte>, agent: seq<byte>, id: u16): (r: seq<byte>)
    requires |was| == DATA_AT + ROOM && |payload| <= ROOM && |agent| == 4
    ensures |r| == |was|
  {
    var q := Headed(Filled(was, payload, agent, id));
    Patch(q, 26, LeBytes(Sent(Checksum(Summed(q, |payload| + 8)))))
  }

  const FIRST_ID: u16 := 12000

  /** The packet as it is prepared when the socket is opened. */
  function Opened(daddr: seq<byte>, port: u16): (p: seq<byte>)
    requires |daddr| == 4
    ensures |p| == DATA_AT + ROOM && p[10] == 0 && p[11] == 0
  {
    [0x45, 0] + seq(6, _ => 0) + [64, UDP] + seq(6, _ => 0) + daddr + Be(port) + Be(port) + seq(4 + ROOM, _ => 0)
  }

  class SendPacket {
    const buf: array<byte>
    var ipid: u16

    constructor (daddr: seq<byte>, port: u16)
      requires |daddr| == 4
      ensures fresh(buf) && buf[..] == Opened(daddr, port) && ipid == FIRST_ID
    {
      var prepared := Opened(daddr, port);
      buf := new byte[DATA_AT + ROOM](i requires 0 <= i < DATA_AT + ROOM => prepared[i]);
      ipid := FIRST_ID;
      new;
      assert buf[..] == prepared;
    }

    /** Copies bytes into the buffer. */
    method Copy(at: nat, bs: seq<byte>)
      requires at + |bs| <= buf.Length
      modifies buf
      ensures buf[..] == Patch(old(buf[..]), at, bs)
    {
      forall i | 0 <= i < |bs| {
        buf[at + i] := bs[i];
      }
    }

    /** Sets the IP header fields and its checksum, and copies the data. */
    method FillHeader(payload: seq<byte>, agent: seq<byte>)
      requires buf.Length == DATA_AT + ROOM && |payload| <= ROOM && |agent| == 4
      modifies this`ipid, buf
      ensures ipid == (old(ipid) + 1) % 0x1_0000
      ensures var p := Filled(old(buf[..]), payload, agent, ipid);
              buf[..] == Headed(p)
    {
      hide Patch, Filled, Be, LeBytes;
      ghost var was := buf[..];
      Copy(DATA_AT, payload);
      ipid := (ipid + 1) % 0x1_0000;
      Copy(4, Be(ipid));
      Copy(2, Be(|payload| + DATA_AT));
      Copy(24, Be(|payload| + 8));
      Copy(12, agent);
      PatchesFill(was, payload, agent, ipid);
      assert buf[..IP_LEN] == buf[..][..IP_LEN];
      var check := InChecksum(buf, 0, IP_LEN);
      Copy(10, LeBytes(Sent(check)));
    }

    /** Prepares one datagram. Outside the two checksum fields the buffer is the
        filled packet, so nothing of the pseudo-header stays; the UDP checksum is
        right; the IP header checksum is right exactly if its field held one of the
        two zeros before, and is itself never stored as zero. */
    method SendDatagram(payload: seq<byte>, agent: seq<byte>)
      requires buf.Length == DATA_AT + ROOM && |payload| <= ROOM && |agent| == 4
      modifies this`ipid, buf
      ensures ipid == (old(ipid) + 1) % 0x1_0000
      ensures buf[..] == Packet(old(buf[..]), payload, agent, ipid)
      ensures var p := Filled(old(buf[..]), payload, agent, ipid);
              buf[..10] == p[..10] && buf[12..26] == p[12..26] && buf[28..] == p[28..]
      ensures Le(buf[10], buf[11]) != 0 && Le(buf[26], buf[27]) != 0
      ensures Checksum(Pseudo(buf[..IP_LEN], |payload| + 8) + buf[20..DATA_AT + |payload|]) == 0
      ensures var x := old(Le(buf[10], buf[11]));
              Checksum(buf[..IP_LEN]) == 0 <==> x == 0 || x == 0xFFFF
    {
      ghost var was := buf[..];
      FillHeader(payload, agent);
      ghost var filled := buf[..];
      HeadedLength(was, payload, agent, ipid);
      StoreUdpChecksum();
      PacketParts(was, payload, agent, ipid);
      HeaderRight(was, payload, agent, ipid);
      DatagramRight(was, payload, agent, ipid);
      hide Packet, Checksum, Pseudo, Filled, Le, Be;
      assert buf[..IP_LEN] == buf[..][..IP_LEN] && buf[20..DATA_AT + |payload|] == buf[..][20..DATA_AT + |payload|];
      assert buf[..10] == buf[..][..10] && buf[12..26] == buf[..][12..26] && buf[28..] == buf[..][28..];
    }

    /** Computes the UDP checksum under the pseudo-header and takes it away again. */
    method StoreUdpChecksum()
      requires buf.Length == DATA_AT + ROOM
      requires 8 <= Join(0, 0, buf[24], buf[25]) <= 8 + ROOM
      modifies buf
      ensures var p, len := old(buf[..]), Join(0, 0, old(buf[24]), old(buf[25]));
              buf[..] == Patch(p, 26, LeBytes(Sent(Checksum(Summed(p, len)))))
    {
      hide Patch, LeBytes, Checksum;
      ghost var p := buf[..];
      var len := Join(0, 0, buf[24], buf[25]);
      var h := buf[12..20] + [0, UDP] + buf[24..26];
      HeaderOf(p, len);
      var saved := buf[8..20];
      Copy(8, h);
      Copy(26, [0, 0]);
      Covered(p, h, [0, 0], 20 + len);
      assert buf[8..20 + len] == buf[..][8..20 + len];
      var sum := InChecksum(buf, 8, len + 12);
      Copy(26, LeBytes(Sent(sum)));
      Restored(p, h, [0, 0], LeBytes(Sent(sum)));
      Copy(8, saved);
    }
  }

  /** In a packet with its length in place, the header checksum that was stored
      checks to zero exactly if the field held one of the two zeros before. */
  lemma HeaderChecks(p: seq<byte>, x: seq<byte>)
    requires |p| >= DATA_AT && |x| == 2 && p[10..12] == x && WordSum(p[2..4]) > 0
    ensures var q := Patch(p, 10, LeBytes(Sent(Checksum(p[..IP_LEN]))));
            Checksum(q[..IP_LEN]) == 0 <==> Le(x[0], x[1]) == 0 || Le(x[0], x[1]) == 0xFFFF
  {
    hide WordSum, LeBytes, Sent, Checksum, Le;
    var c := LeBytes(Sent(Checksum(p[..IP_LEN])));
    var a, b := p[..10], p[12..IP_LEN];
    assert p[..IP_LEN] == a + x + b;
    assert Patch(p, 10, c)[..IP_LEN] == a + c + b;
    assert a == p[..2] + (p[2..4] + p[4..10]);
    SumJoins(p[..2], p[2..4] + p[4..10]);
    SumJoins(p[2..4], p[4..10]);
    ChecksumStored(a, x, b);
  }

  /** The UDP checksum that was stored checks to zero under the pseudo-header. */
  lemma DatagramChecks(p: seq<byte>, len: u16)
    requires |p| >= DATA_AT && 8 <= len && 20 + len <= |p|
    ensures var h := Pseudo(p[..IP_LEN], len);
            var q := Patch(p, 26, LeBytes(Sent(Checksum(h + p[20..26] + [0, 0] + p[28..20 + len]))));
            q[..IP_LEN] == p[..IP_LEN] && Checksum(h + q[20..20 + len]) == 0
  {
    hide WordSum, LeBytes, Sent, Checksum, Pseudo, Patch, Le;
    var h := Pseudo(p[..IP_LEN], len);
    var a, b := h + p[20..26], p[28..20 + len];
    DatagramPatched(p, h, LeBytes(Sent(Checksum(a + [0, 0] + b))), len);
    SumJoins(h, p[20..26]);
    PseudoSum(p[..IP_LEN], len);
    NoWord();
    ChecksumStored(a, [0, 0], b);
  }

  lemma NoWord()
    ensures Le([0, 0][0], [0, 0][1]) == 0
  {
  }

  lemma DatagramPatched(p: seq<byte>, h: seq<byte>, c: seq<byte>, len: u16)
    requires |p| >= DATA_AT && 8 <= len && 20 + len <= |p| && |c| == 2
    ensures var q := Patch(p, 26, c);
            q[..IP_LEN] == p[..IP_LEN] && h + q[20..20 + len] == (h + p[20..26]) + c + p[28..20 + len]
  {
    var q := Patch(p, 26, c);
    assert q[20..20 + len] == p[20..26] + c + p[28..20 + len];
  }

  lemma PseudoSum(ip: seq<byte>, len: u16)
    requires |ip| == IP_LEN
    ensures WordSum(Pseudo(ip, len)) > 0
  {
    NonZeroSum(Pseudo(ip, len), 9);
  }

  /** The header checksum of a filled packet. */
  lemma HeaderFilled(p: seq<byte>, was: seq<byte>, n: nat)
    requires |p| == |was| >= DATA_AT && n <= ROOM && p[10..12] == was[10..12] && p[2..4] == Be(n + DATA_AT)
    ensures var q := Patch(p, 10, LeBytes(Sent(Checksum(p[..IP_LEN]))));
            && (Checksum(q[..IP_LEN]) == 0 <==> Le(was[10], was[11]) == 0 || Le(was[10], was[11]) == 0xFFFF)
            && q[24..26] == p[24..26]
  {
    hide WordSum, LeBytes, Sent, Checksum, Le;
    assert was[10..12][0] == was[10] && was[10..12][1] == was[11];
    NonZeroSum(p[2..4], if n + DATA_AT >= 0x100 then 0 else 1);
    HeaderChecks(p, was[10..12]);
  }

  lemma LengthOf(p: seq<byte>, v: u16)
    requires |p| >= DATA_AT && p[24..26] == Be(v)
    ensures Join(0, 0, p[24], p[25]) == v
  {
    assert p[24] == p[24..26][0] && p[25] == p[24..26][1];
  }

  // The packet that is sent.

  lemma HeadedLength(was: seq<byte>, payload: seq<byte>, agent: seq<byte>, id: u16)
    requires |was| == DATA_AT + ROOM && |payload| <= ROOM && |agent| == 4
    ensures var q := Headed(Filled(was, payload, agent, id)); Join(0, 0, q[24], q[25]) == |payload| + 8
  {
    hide Filled, Be, Checksum, Sent, LeBytes;
    var p := Filled(was, payload, agent, id);
    FilledParts(was, payload, agent, id);
    assert Headed(p)[24..26] == p[24..26];
    LengthOf(Headed(p), |payload| + 8);
  }

  /** Outside the two checksums it is the filled packet. */
  lemma PacketParts(was: seq<byte>, payload: seq<byte>, agent: seq<byte>, id: u16)
    requires |was| == DATA_AT + ROOM && |payload| <= ROOM && |agent| == 4
    ensures var p, r := Filled(was, payload, agent, id), Packet(was, payload, agent, id);
            && r[..10] == p[..10] && r[12..26] == p[12..26] && r[28..] == p[28..]
            && r[..IP_LEN] == Headed(p)[..IP_LEN]
            && Le(r[10], r[11]) == Sent(Checksum(p[..IP_LEN])) && Le(r[26], r[27]) != 0
  {
    hide Filled, Summed, Checksum, Sent, LeBytes, Le, Pseudo;
    var p := Filled(was, payload, agent, id);
    var q := Headed(p);
    var c, d := LeBytes(Sent(Checksum(p[..IP_LEN]))), LeBytes(Sent(Checksum(Summed(q, |payload| + 8))));
    assert q[10] == c[0] && q[11] == c[1];
    var r := Patch(q, 26, d);
    assert r[26] == d[0] && r[27] == d[1];
    SentPositive(Checksum(Summed(q, |payload| + 8)));
  }

  lemma SentPositive(answer: u16)
    ensures Sent(answer) != 0
  {
  }

  /** Its IP header checksum is right exactly if the field was one of the two zeros. */
  lemma HeaderRight(was: seq<byte>, payload: seq<byte>, agent: seq<byte>, id: u16)
    requires |was| == DATA_AT + ROOM && |payload| <= ROOM && |agent| == 4
    ensures var r := Packet(was, payload, agent, id);
            && Le(r[10], r[11]) != 0
            && (Checksum(r[..IP_LEN]) == 0 <==> Le(was[10], was[11]) == 0 || Le(was[10], was[11]) == 0xFFFF)
  {
    hide Filled, Packet, Checksum, Sent, LeBytes, Le, Be;
    var p := Filled(was, payload, agent, id);
    FilledParts(was, payload, agent, id);
    HeaderFilled(p, was, |payload|);
    PacketParts(was, payload, agent, id);
    SentPositive(Checksum(p[..IP_LEN]));
  }

  /** Its UDP checksum is right. */
  lemma DatagramRight(was: seq<byte>, payload: seq<byte>, agent: seq<byte>, id: u16)
    requires |was| == DATA_AT + ROOM && |payload| <= ROOM && |agent| == 4
    ensures var r := Packet(was, payload, agent, id);
            Checksum(Pseudo(r[..IP_LEN], |payload| + 8) + r[20..DATA_AT + |payload|]) == 0
  {
    hide Filled, Checksum, Sent, LeBytes, Pseudo, Patch;
    DatagramChecks(Headed(Filled(was, payload, agent, id)), |payload| + 8);
  }

  // Where the fields of a packet are (section 3.1 of RFC 791, RFC 768).

  /** The pseudo-header: source, destination, a zero, the protocol and the UDP length. */
  lemma PseudoFields(ip: seq<byte>, len: u16)
    requires |ip| == 20
    ensures var h := Pseudo(ip, len);
            && h[0..4] == ip[12..16] && h[4..8] == ip[16..20] && h[8] == 0 && h[9] == 17
            && (h[10] as int) * 256 + h[11] as int == len
  {
  }

  /** As it is prepared: version 4 with five words of header, time to live 64, UDP, the
      destination, and both ports; everything else is zero. */
  lemma OpenedFields(daddr: seq<byte>, port: u16)
    requires |daddr| == 4
    ensures var p := Opened(daddr, port);
            && p[0] == 0x45 && p[8] == 64 && p[9] == 17 && p[16..20] == daddr
            && (p[20] as int) * 256 + p[21] as int == port && (p[22] as int) * 256 + p[23] as int == port
            && forall i :: 0 <= i < |p| && i != 0 && i != 8 && i != 9 && !(16 <= i < 24) ==> p[i] == 0
  {
    assert Opened(daddr, port)[16..20] == daddr;
    assert Opened(daddr, port)[20] == Be(port)[0] && Opened(daddr, port)[21] == Be(port)[1];
    assert Opened(daddr, port)[22] == Be(port)[0] && Opened(daddr, port)[23] == Be(port)[1];
  }

  /** As it is sent: the total length and the identification, the agent as the source, the
      UDP length and the data are in their places, and the rest is as it was prepared. */
  lemma PacketFields(was: seq<byte>, payload: seq<byte>, agent: seq<byte>, id: u16)
    requires |was| == DATA_AT + ROOM && |payload| <= ROOM && |agent| == 4
    ensures var r := Packet(was, payload, agent, id);
            && r[..2] == was[..2] && r[6..10] == was[6..10] && r[16..24] == was[16..24]
            && (r[2] as int) * 256 + r[3] as int == |payload| + 28 && (r[4] as int) * 256 + r[5] as int == id
            && r[12..16] == agent && (r[24] as int) * 256 + r[25] as int == |payload| + 8
            && r[28..28 + |payload|] == payload
  {
    FilledFields(was, payload, agent, id);
    hide Filled, Packet, Headed, Be;
    PacketParts(was, payload, agent, id);
    var p, r := Filled(was, payload, agent, id), Packet(was, payload, agent, id);
    assert forall i :: 0 <= i < 10 ==> r[i] == r[..10][i] && p[i] == p[..10][i];
    assert forall i :: 0 <= i < 14 ==> r[12 + i] == r[12..26][i] && p[12 + i] == p[12..26][i];
    assert r[28..28 + |payload|] == r[28..][..|payload|] && p[28..28 + |payload|] == p[28..][..|payload|];
    assert r[..2] == p[..2] && r[6..10] == p[6..10] && r[16..24] == p[16..24] && r[12..16] == p[12..16];
  }

  lemma FilledFields(was: seq<byte>, payload: seq<byte>, agent: seq<byte>, id: u16)
    requires |was| == DATA_AT + ROOM && |payload| <= ROOM && |agent| == 4
    ensures var p := Filled(was, payload, agent, id);
            && p[..2] == was[..2] && p[6..10] == was[6..10] && p[16..24] == was[16..24]
            && (p[2] as int) * 256 + p[3] as int == |payload| + 28 && (p[4] as int) * 256 + p[5] as int == id
            && p[12..16] == agent && (p[24] as int) * 256 + p[25] as int == |payload| + 8
            && p[28..28 + |payload|] == payload
  {
    var p := Filled(was, payload, agent, id);
    assert forall i :: 16 <= i < 24 ==> p[i] == was[i];
    assert forall i :: 6 <= i < 10 ==> p[i] == was[i];
    assert p[16..24] == was[16..24] && p[6..10] == was[6..10];
    assert p[2..4] == Be(|payload| + 28) && p[4..6] == Be(id) && p[24..26] == Be(|payload| + 8);
    assert p[2] == p[2..4][0] && p[3] == p[2..4][1] && p[4] == p[4..6][0] && p[5] == p[4..6][1];
    assert p[24] == p[24..26][0] && p[25] == p[24..26][1];
  }

  // Which packets have a right header checksum.

  /** The first one has. */
  lemma FirstPacketRight(daddr: seq<byte>, port: u16, payload: seq<byte>, agent: seq<byte>, id: u16)
    requires |daddr| == 4 && |payload| <= ROOM && |agent| == 4
    ensures Checksum(Packet(Opened(daddr, port), payload, agent, id)[..IP_LEN]) == 0
  {
    hide Packet, Opened, Checksum;
    HeaderRight(Opened(daddr, port), payload, agent, id);
  }

  /** A later one has exactly if the one before it was sent with a checksum of 65535. */
  lemma NextPacketRight(was: seq<byte>, payload: seq<byte>, agent: seq<byte>, id: u16,
                        nextPayload: seq<byte>, nextAgent: seq<byte>, nextId: u16)
    requires |was| == DATA_AT + ROOM && |payload| <= ROOM && |agent| == 4 && |nextPayload| <= ROOM && |nextAgent| == 4
    ensures var r := Packet(was, payload, agent, id);
            Checksum(Packet(r, nextPayload, nextAgent, nextId)[..IP_LEN]) == 0 <==> Le(r[10], r[11]) == 0xFFFF
  {
    hide Packet, Checksum, Le;
    HeaderRight(was, payload, agent, id);
    HeaderRight(Packet(was, payload, agent, id), nextPayload, nextAgent, nextId);
  }

  const ZERO_ADDRESS: seq<byte> := [0, 0, 0, 0]

  /** Two empty datagrams, sent one after the other: the header checksum of the
      second one is wrong. */
  lemma SecondPacketWrong()
    ensures var r := Packet(Opened(ZERO_ADDRESS, 0), [], ZERO_ADDRESS, FIRST_ID + 1);
            Le(r[10], r[11]) == 61771 && Checksum(Packet(r, [], ZERO_ADDRESS, FIRST_ID + 2)[..IP_LEN]) != 0
  {
    hide Packet, Filled, Opened;
    FirstHeader();
    PacketParts(Opened(ZERO_ADDRESS, 0), [], ZERO_ADDRESS, FIRST_ID + 1);
    NextPacketRight(Opened(ZERO_ADDRESS, 0), [], ZERO_ADDRESS, FIRST_ID + 1, [], ZERO_ADDRESS, FIRST_ID + 2);
  }

  lemma HeaderWords(was: seq<byte>, payload: seq<byte>, agent: seq<byte>, id: u16)
    requires |was| == DATA_AT + ROOM && |payload| <= ROOM && |agent| == 4
    ensures Filled(was, payload, agent, id)[..IP_LEN]
         == was[..2] + Be(|payload| + DATA_AT) + Be(id) + was[6..8] + was[8..10] + was[10..12] + agent + was[16..20]
  {
    hide Be;
  }

  lemma OpenedWords()
    ensures var p := Opened(ZERO_ADDRESS, 0);
            && p[..2] == [0x45, 0] && p[6..8] == [0, 0] && p[8..10] == [64, UDP] && p[10..12] == [0, 0]
            && p[16..20] == ZERO_ADDRESS
  {
  }

  /** Appending one word. */
  lemma OneMore(a: seq<byte>, w: seq<byte>)
    requires |a| % 2 == 0 && |w| == 2
    ensures WordSum(a + w) == WordSum(a) + Le(w[0], w[1])
  {
    SumJoins(a, w);
    assert WordSum(w) == Le(w[0], w[1]) + WordSum(w[2..]) && w[2..] == [];
  }

  lemma FirstHeader()
    ensures Checksum(Filled(Opened(ZERO_ADDRESS, 0), [], ZERO_ADDRESS, FIRST_ID + 1)[..IP_LEN]) == 61771
  {
    hide Opened, Filled, WordSum;
    var none: seq<byte> := [];
    HeaderWords(Opened(ZERO_ADDRESS, 0), none, ZERO_ADDRESS, FIRST_ID + 1);
    OpenedWords();
    var a := [0x45, 0] + Be(28);
    var b := a + Be(FIRST_ID + 1);
    var c := b + [0, 0] + [64, UDP] + [0, 0];
    NoSum(ZERO_ADDRESS);
    assert WordSum([0x45, 0]) == 69 by {
      NoSum(none);
      OneMore(none, [0x45, 0]);
      assert none + [0x45, 0] == [0x45, 0];
    }
    OneMore([0x45, 0], Be(28));
    OneMore(a, Be(FIRST_ID + 1));
    OneMore(b, [0, 0]);
    OneMore(b + [0, 0], [64, UDP]);
    OneMore(b + [0, 0] + [64, UDP], [0, 0]);
    SumJoins(c, ZERO_ADDRESS);
    SumJoins(c + ZERO_ADDRESS, ZERO_ADDRESS);
  }

  lemma {:induction false} NoSum(bs: seq<byte>)
    requires |bs| % 2 == 0 && forall b :: b in bs ==> b == 0
    ensures WordSum(bs) == 0
  {
    if bs == [] {
    } else {
      assert bs[0] in bs && bs[1] in bs && forall b :: b in bs[2..] ==> b in bs;
      NoSum(bs[2..]);
    }
  }

  lemma HeaderOf(p: seq<byte>, len: u16)
    requires |p| >= DATA_AT && len == Join(0, 0, p[24], p[25])
    ensures p[12..20] + [0, UDP] + p[24..26] == Pseudo(p[..IP_LEN], len)
  {
    assert len == (p[24] as int) * 0x100 + p[25] as int;
    assert Be(len) == [p[24], p[25]];
    assert p[12..20] == p[..IP_LEN][12..20];
  }
}
