/** The cursor primitives and the parts that record readers are made of. */
module Reader {
  import opened Xdr
  import opened SampleState

  type BufLen = n: nat | n > 0 witness 1

  /** From this count on, four times the count no longer fits 32 bits. */
  const WRAPS: nat := 0x4000_0000

  function Store(d: NumSlot, v: u32, x: St): (y: St)
    ensures |y.rest| == |x.rest| && |y.log| == |x.log|
  {
    x.(f := SetNum(x.f, d, v))
  }

  function StoreAddr(a: AddrSlot, v: Address, x: St): (y: St)
    ensures |y.rest| == |x.rest| && |y.log| == |x.log|
  {
    x.(f := SetAddr(x.f, a, v))
  }

  function StoreStr(s: StrSlot, v: seq<byte>, x: St): (y: St)
    ensures |y.rest| == |x.rest| && |y.log| == |x.log|
  {
    x.(f := SetStr(x.f, s, v))
  }

  function StoreList(l: ListSlot, v: seq<u32>, x: St): (y: St)
    ensures |y.rest| == |x.rest| && |y.log| == |x.log|
  {
    x.(f := SetList(x.f, l, v))
  }

  function SetPath(p: AsPath, x: St): (y: St)
    ensures |y.rest| == |x.rest| && |y.log| == |x.log|
  {
    x.(path := p)
  }

  /** Counts one completed iteration. */
  function Count(x: St): (y: St)
    ensures |y.rest| == |x.rest| && |y.log| == |x.log|
  {
    x.(work := x.work + 1)
  }

  function Line(e: Event, x: St): (y: St)
    ensures |y.rest| == |x.rest| && y.f == x.f && |x.log| <= |y.log|
  {
    x.(log := x.log + [e])
  }

  function Lines(es: seq<Event>, x: St): (y: St)
    ensures |y.rest| == |x.rest| && y.f == x.f && |x.log| <= |y.log|
  {
    x.(log := x.log + es)
  }

  function Mark(flag: Flag, x: St): (y: St)
    ensures |y.rest| == |x.rest| && |y.log| == |x.log|
  {
    x.(f := x.f.(flags := x.f.flags + {flag}))
  }

  function Show(d: NumSlot, x: St): (y: St)
    ensures |y.rest| == |x.rest| && y.f == x.f && |x.log| <= |y.log|
  {
    Line(ShowNum(d, Num(x.f, d)), x)
  }

  function ShowAddr(a: AddrSlot, x: St): (y: St)
    ensures |y.rest| == |x.rest| && y.f == x.f && |x.log| <= |y.log|
  {
    Line(ShowAddress(a, Addr(x.f, a)), x)
  }

  function ShowStr(s: StrSlot, x: St): (y: St)
    ensures |y.rest| == |x.rest| && y.f == x.f && |x.log| <= |y.log|
  {
    Line(ShowString(s, CString(Str(x.f, s))), x)
  }

  /** Takes n words, unless fewer are left. */
  function Get(n: nat, x: St): (g: Got)
    ensures g.Got? ==> |g.words| == n && Advances(x, g.next) && |g.next.rest| == |x.rest| - n
  {
    if n > |x.rest| then Short(x) else Got(x.rest[..n], x.(rest := x.rest[n..]))
  }

  /** Reads one word into a field. */
  function Read(d: NumSlot, x: St): (o: Out)
    ensures Advances(x, o.st)
  {
    var (w, y) :- Get(1, x);
    Out(Fine, Store(d, w[0], y))
  }

  /** Reads one word and prints it. */
  function Next32(x: St): (o: Out)
    ensures Advances(x, o.st)
  {
    var (w, y) :- Get(1, x);
    Out(Fine, Line(Flat32(w[0]), y))
  }

  /** How many application status codes have a name. */
  const STATUS_NAMES: nat := 11

  /** Reads a status and prints its name; the table is indexed unchecked. */
  function NextStatus(x: St): (o: Out)
    ensures Advances(x, o.st)
  {
    var (w, y) :- Get(1, x);
    if w[0] >= STATUS_NAMES then Out(Outside(BadIndex), y) else Out(Fine, Line(Flat32(w[0]), y))
  }

  function Next64(x: St): (o: Out)
    ensures Advances(x, o.st)
  {
    var (hi, y) :- Get(1, x);
    var (lo, z) :- Get(1, y);
    Out(Fine, Line(Flat64(hi[0], lo[0]), z))
  }

  /** Skips n bytes and prints them. */
  function NextBytes(n: nat, x: St): (o: Out)
    ensures Advances(x, o.st)
  {
    var (ws, y) :- Get(Quads(n), x);
    Out(Fine, Line(FlatBytes(Bytes(ws)[..n]), y))
  }

  type StructLen = n: u32 | n >= 4 witness 4

  /** A decoded IP header: its length becomes the header length, its first word the
      packet size, and it is kept as the sampled header. */
  function ReadIpStruct(n: StructLen, x: St): (o: Out)
    ensures Advances(x, o.st)
  {
    var (ws, y) :- Get(Quads(n), Store(HeaderLen, n, x));
    var z := StoreStr(SampledHeader, Bytes(ws), Store(SampledPacketSize, ws[0], y));
    Out(Fine, Line(FlatBytes(Bytes(ws)[..n]), Show(SampledPacketSize, z)))
  }

  /** How much of a string of len bytes fits a buffer with a final zero. */
  function Kept(len: nat, room: BufLen): (n: nat)
    ensures n <= len
    ensures len < room ==> n == len
  {
    if len >= room then room - 1 else len
  }

  function NextString(room: BufLen, x: St): (o: Out)
    ensures Advances(x, o.st)
  {
    var (len, y) :- Get(1, x);
    var (ws, z) :- Get(Quads(len[0]), y);
    Out(Fine, if len[0] > 0 then Line(FlatBytes(CString(Bytes(ws)[..Kept(len[0], room)])), z) else z)
  }

  function ReadAddr(a: AddrSlot, x: St): (o: Out)
    ensures Advances(x, o.st)
  {
    var (kind, y) :- Get(1, x);
    var y := StoreAddr(a, Addr(y.f, a).(kind := kind[0]), y);
    var (ws, z) :- Get(if kind[0] == IP_V4 then 1 else 4, y);
    Out(Fine, StoreAddr(a, Address(kind[0], Bytes(ws)), z))
  }

  /** A counted string: what fits the buffer is kept, all of it is skipped. */
  function ReadStr(s: StrSlot, room: BufLen, x: St): (o: Out)
    ensures Advances(x, o.st)
  {
    var (len, y) :- Get(1, x);
    var (ws, z) :- Get(Quads(len[0]), y);
    Out(Fine, Store(LenSlot(s), len[0], StoreStr(s, Bytes(ws)[..Kept(len[0], room)], z)))
  }

  // The AS path of a version 4 or 5 gateway record.

  function ExtendPath(path: AsPath, asNumber: u32): AsPath {
    if path == [] then path else
      path[|path| - 1 := path[|path| - 1].(ases := path[|path| - 1].ases + [asNumber])]
  }

  /** What is printed for one AS number. */
  function AsPieces(i: nat, first: bool, kind: u32, n: u32): seq<Event> {
    (if i == 0 && first then [] else [PathPiece(Dash)])
    + (if i == 0 && kind == AS_SET then [PathPiece(Open)] else [])
    + [PathPiece(AsNumber(n))]
  }

  function TakeAsNumber(i: nat, len: u32, first: bool, last: bool, kind: u32, n: u32, x: St): (y: St)
    ensures |y.rest| == |x.rest| && |x.log| <= |y.log|
  {
    var y := if i == 0 && first then Store(DstPeerAs, n, x) else x;
    var z := if last && i + 1 == len then Store(DstAs, n, y) else y;
    Count(Lines(AsPieces(i, first, kind, n), SetPath(ExtendPath(x.path, n), z)))
  }

  function ReadAsNumbers(i: nat, len: u32, first: bool, last: bool, kind: u32, x: St): (o: Out)
    ensures Advances(x, o.st)
    decreases len - i
  {
    if i >= len then Out(Fine, x) else
      var (w, y) :- Get(1, x);
      var z := TakeAsNumber(i, len, first, last, kind, w[0], y);
      ReadAsNumbers(i + 1, len, first, last, kind, z)
  }

  function CloseSegment(kind: u32, x: St): (y: St)
    ensures |y.rest| == |x.rest| && |x.log| <= |y.log|
  {
    Count(if kind == AS_SET then Line(PathPiece(Close), x) else x)
  }

  /** One segment: its type, its length, its AS numbers, and a parenthesis to close a set. */
  function ReadSegment(seg: nat, total: u32, x: St): (o: Out)
    ensures Advances(x, o.st)
  {
    var (kind, y) :- Get(1, x);
    var (len, z) :- Get(1, y);
    var z := SetPath(z.path + [Segment(kind[0], [])], z);
    var w :- ReadAsNumbers(0, len[0], seg == 0, seg + 1 == total, kind[0], z);
    Out(Fine, CloseSegment(kind[0], w))
  }

  function ReadSegments(seg: nat, total: u32, x: St): (o: Out)
    ensures Advances(x, o.st)
    decreases total - seg
  {
    if seg >= total then Out(Fine, x) else
      var y :- ReadSegment(seg, total, x);
      ReadSegments(seg + 1, total, y)
  }

  /** No endpoint is remembered from an earlier record. */
  function ClearEnds(x: St): (y: St)
    ensures |y.rest| == |x.rest| && |x.log| <= |y.log|
  {
    SetPath([], Store(DstAs, 0, Store(DstPeerAs, 0, x)))
  }

  function ReadPath(x: St): (o: Out)
    ensures Advances(x, o.st)
  {
    var (total, y) :- Get(1, x);
    var y := ClearEnds(y);
    if total[0] == 0 then Out(Fine, y) else
      var z :- ReadSegments(0, total[0], Line(PathPiece(PathStart), y));
      Out(Fine, Line(PathPiece(PathEnd), z))
  }

  /** A list of n AS numbers; four times n is taken in 32 bits. */
  function TakeListV2(n: u32, x: St): (o: Out)
    requires n > 0
    ensures Advances(x, o.st)
  {
    var (ws, y) :- Get(n % WRAPS, x);
    if n >= WRAPS then Out(Outside(CountWraps), y) else
      var y := SetPath([Segment(AS_SEQUENCE, ws)], StoreList(DstAsPathList, ws, y));
      Out(Fine, Store(DstAs, ws[n - 1], Store(DstPeerAs, ws[0], y)))
  }

  /** The AS path of a version 2 gateway record: one counted list. */
  function ReadPathV2(x: St): (o: Out)
    ensures Advances(x, o.st)
  {
    var (n, y) :- Get(1, ClearEnds(x));
    var y := Store(DstAsPathLen, n[0], y);
    if n[0] == 0 then Out(Fine, y) else TakeListV2(n[0], y)
  }

  function ShowPathV2(x: St): (y: St)
    ensures |y.rest| == |x.rest| && y.f == x.f && |x.log| <= |y.log|
  {
    if Num(x.f, DstAsPathLen) > 0 then Line(PathV2(List(x.f, DstAsPathList)), x) else x
  }

  function ReadCommunities(x: St): (o: Out)
    ensures Advances(x, o.st)
  {
    var (n, y) :- Get(1, x);
    var y := Store(CommunitiesLen, n[0], y);
    var (ws, z) :- Get(n[0] % WRAPS, y);
    if n[0] >= WRAPS then Out(Outside(CountWraps), z) else
      Out(Fine, if n[0] > 0 then StoreList(CommunityList, ws, z) else z)
  }

  function ShowCommunities(x: St): (y: St)
    ensures |y.rest| == |x.rest| && y.f == x.f && |x.log| <= |y.log|
  {
    if Num(x.f, CommunitiesLen) > 0 then Line(Communities(List(x.f, CommunityList)), x) else x
  }

  /** A counted stack of labels, printed but not kept. */
  function ReadStack(s: StackName, x: St): (o: Out)
    ensures Advances(x, o.st)
  {
    var (n, y) :- Get(1, x);
    var (ws, z) :- Get(n[0] % WRAPS, y);
    if n[0] >= WRAPS then Out(Outside(CountWraps), z) else
      Out(Fine, if n[0] > 0 then Line(Labels(s, ws), z) else z)
  }

  function ReadHeaderBytes(x: St): (o: Out)
    ensures Advances(x, o.st)
  {
    var n := Num(x.f, HeaderLen);
    var (ws, y) :- Get(Quads(n), x);
    Out(Fine, Line(HeaderBytes(Bytes(ws)[..n]), StoreStr(SampledHeader, Bytes(ws), y)))
  }

  /** The 802.1Q VLAN of a sampled Ethernet header of n captured bytes, or -1. */
  function TaggedVlan(bytes: seq<byte>, n: u32): (v: int)
    ensures v < 4096
  {
    if n < 14 || |bytes| < 16 then -1
    else if bytes[12] == 0x81 && bytes[13] == 0 then ((bytes[14] as int) * 256 + bytes[15] as int) % 4096
    else -1
  }

  /** The branch on the header protocol: an undefined one ends the program. */
  function DecodeHeader(x: St): (o: Out)
    ensures Advances(x, o.st)
  {
    var p := Num(x.f, HeaderProtocol);
    if p == 1 then
      var v := TaggedVlan(Str(x.f, SampledHeader), Num(x.f, HeaderLen));
      Out(Fine, if v < 0 then x else Line(DecodedVlan(v), Store(InVlan, v, x)))
    else if 2 <= p <= 17 then Out(Fine, x)
    else Out(Exit(-12), x)
  }
}
