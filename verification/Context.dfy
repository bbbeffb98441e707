/** Readers do not look around: what a reader does depends only on the words it
    consumes and on the fields, never on what lies behind those words, on what
    was printed before or on the work already counted. */
module Context {
  import opened Xdr
  import opened SampleState
  import opened Reader
  import opened Records
  import opened FlowDecode

  /** Another context for a state: if `cut`, its last `keep` words are replaced by
      `tail`; the first lines of its trace, `before`, are replaced by `after`;
      and `extra` iterations are added to its work. */
  datatype Ctx = Ctx(cut: bool, keep: nat, tail: seq<u32>, before: seq<Event>, after: seq<Event>, extra: nat)

  ghost predicate Fits(c: Ctx, x: St) {
    (c.cut ==> c.keep <= |x.rest|) && |c.before| <= |x.log|
  }

  ghost function Place(c: Ctx, x: St): (y: St)
    ensures y.f == x.f && y.path == x.path
  {
    if !Fits(c, x) then x else
      St(if c.cut then x.rest[..|x.rest| - c.keep] + c.tail else x.rest,
         x.f, x.path, c.after + x.log[|c.before|..], x.work + c.extra)
  }

  /** A run that the other context cannot disturb: one that keeps clear of the
      replaced words, and that does not run out of words if any are replaced. */
  ghost predicate Clear(c: Ctx, o: Out) {
    Fits(c, o.st) && (c.cut ==> o.sig != Abort(EOS))
  }

  ghost function Placed(c: Ctx, o: Out): Out {
    Out(o.sig, Place(c, o.st))
  }

  // The primitives.

  lemma GetPlaced(c: Ctx, n: nat, x: St)
    requires Fits(c, x)
    requires c.cut ==> n + c.keep <= |x.rest|
    ensures var g := Get(n, x);
            Get(n, Place(c, x)) == if g.Got? then Got(g.words, Place(c, g.next)) else Short(Place(c, g.st))
  {
    if n <= |x.rest| && c.cut {
      var cutRest := x.rest[..|x.rest| - c.keep] + c.tail;
      assert cutRest[..n] == x.rest[..n];
      assert cutRest[n..] == x.rest[n..][..|x.rest| - n - c.keep] + c.tail;
    }
  }

  lemma GetsPlaced(c: Ctx)
    ensures forall n: nat, x {:trigger Get(n, Place(c, x))} | Fits(c, x) && (c.cut ==> n + c.keep <= |x.rest|) ::
              var g := Get(n, x);
              Get(n, Place(c, x)) == if g.Got? then Got(g.words, Place(c, g.next)) else Short(Place(c, g.st))
  {
    forall n: nat, x | Fits(c, x) && (c.cut ==> n + c.keep <= |x.rest|)
      ensures var g := Get(n, x);
              Get(n, Place(c, x)) == if g.Got? then Got(g.words, Place(c, g.next)) else Short(Place(c, g.st))
    {
      GetPlaced(c, n, x);
    }
  }

  lemma LinesPlaced(c: Ctx, es: seq<Event>, x: St)
    requires Fits(c, x)
    ensures Lines(es, Place(c, x)) == Place(c, Lines(es, x))
  {
    assert c.after + x.log[|c.before|..] + es == c.after + (x.log + es)[|c.before|..];
  }

  lemma StoresPlaced(c: Ctx)
    ensures forall d, v, x {:trigger Store(d, v, Place(c, x))} | Fits(c, x) ::
              Store(d, v, Place(c, x)) == Place(c, Store(d, v, x))
    ensures forall a, v, x {:trigger StoreAddr(a, v, Place(c, x))} | Fits(c, x) ::
              StoreAddr(a, v, Place(c, x)) == Place(c, StoreAddr(a, v, x))
    ensures forall s, v, x {:trigger StoreStr(s, v, Place(c, x))} | Fits(c, x) ::
              StoreStr(s, v, Place(c, x)) == Place(c, StoreStr(s, v, x))
    ensures forall l, v, x {:trigger StoreList(l, v, Place(c, x))} | Fits(c, x) ::
              StoreList(l, v, Place(c, x)) == Place(c, StoreList(l, v, x))
    ensures forall p, x {:trigger SetPath(p, Place(c, x))} | Fits(c, x) ::
              SetPath(p, Place(c, x)) == Place(c, SetPath(p, x))
    ensures forall g, x {:trigger Mark(g, Place(c, x))} | Fits(c, x) :: Mark(g, Place(c, x)) == Place(c, Mark(g, x))
    ensures forall x {:trigger Count(Place(c, x))} | Fits(c, x) :: Count(Place(c, x)) == Place(c, Count(x))
  {
    forall d, v, x | Fits(c, x)
      ensures Store(d, v, Place(c, x)) == Place(c, Store(d, v, x))
    {
    }
    forall a, v, x | Fits(c, x)
      ensures StoreAddr(a, v, Place(c, x)) == Place(c, StoreAddr(a, v, x))
    {
    }
    forall s, v, x | Fits(c, x)
      ensures StoreStr(s, v, Place(c, x)) == Place(c, StoreStr(s, v, x))
    {
    }
    forall l, v, x | Fits(c, x)
      ensures StoreList(l, v, Place(c, x)) == Place(c, StoreList(l, v, x))
    {
    }
    forall p, x | Fits(c, x)
      ensures SetPath(p, Place(c, x)) == Place(c, SetPath(p, x))
    {
    }
    forall g, x | Fits(c, x)
      ensures Mark(g, Place(c, x)) == Place(c, Mark(g, x))
    {
    }
    forall x | Fits(c, x)
      ensures Count(Place(c, x)) == Place(c, Count(x))
    {
    }
  }

  lemma PrintsPlaced(c: Ctx)
    ensures forall e, x {:trigger Line(e, Place(c, x))} | Fits(c, x) :: Line(e, Place(c, x)) == Place(c, Line(e, x))
    ensures forall es, x {:trigger Lines(es, Place(c, x))} | Fits(c, x) ::
              Lines(es, Place(c, x)) == Place(c, Lines(es, x))
    ensures forall d, x {:trigger Show(d, Place(c, x))} | Fits(c, x) :: Show(d, Place(c, x)) == Place(c, Show(d, x))
    ensures forall a, x {:trigger ShowAddr(a, Place(c, x))} | Fits(c, x) ::
              ShowAddr(a, Place(c, x)) == Place(c, ShowAddr(a, x))
    ensures forall s, x {:trigger ShowStr(s, Place(c, x))} | Fits(c, x) ::
              ShowStr(s, Place(c, x)) == Place(c, ShowStr(s, x))
  {
    forall es, x | Fits(c, x)
      ensures Lines(es, Place(c, x)) == Place(c, Lines(es, x))
    {
      LinesPlaced(c, es, x);
    }
    forall e, x | Fits(c, x)
      ensures Line(e, Place(c, x)) == Place(c, Line(e, x))
    {
      LinesPlaced(c, [e], x);
    }
  }

  lemma ReadPlaced(c: Ctx, d: NumSlot, x: St)
    requires Fits(c, x) && Clear(c, Read(d, x))
    ensures Read(d, Place(c, x)) == Placed(c, Read(d, x))
  {
    hide Get, Store, StoreAddr, StoreStr, StoreList, SetPath, Mark, Count, Line, Lines, Show, ShowAddr, ShowStr,
         Place;
    GetsPlaced(c);
    StoresPlaced(c);
    PrintsPlaced(c);
  }

  lemma Next32Placed(c: Ctx, x: St)
    requires Fits(c, x) && Clear(c, Next32(x))
    ensures Next32(Place(c, x)) == Placed(c, Next32(x))
  {
    hide Get, Store, StoreAddr, StoreStr, StoreList, SetPath, Mark, Count, Line, Lines, Show, ShowAddr, ShowStr,
         Place;
    GetsPlaced(c);
    StoresPlaced(c);
    PrintsPlaced(c);
  }

  lemma NextStatusPlaced(c: Ctx, x: St)
    requires Fits(c, x) && Clear(c, NextStatus(x))
    ensures NextStatus(Place(c, x)) == Placed(c, NextStatus(x))
  {
    hide Get, Line, Place;
    GetsPlaced(c);
    PrintsPlaced(c);
  }

  lemma Next64Placed(c: Ctx, x: St)
    requires Fits(c, x) && Clear(c, Next64(x))
    ensures Next64(Place(c, x)) == Placed(c, Next64(x))
  {
    hide Get, Store, StoreAddr, StoreStr, StoreList, SetPath, Mark, Count, Line, Lines, Show, ShowAddr, ShowStr,
         Place;
    GetsPlaced(c);
    StoresPlaced(c);
    PrintsPlaced(c);
  }

  lemma NextBytesPlaced(c: Ctx, n: nat, x: St)
    requires Fits(c, x) && Clear(c, NextBytes(n, x))
    ensures NextBytes(n, Place(c, x)) == Placed(c, NextBytes(n, x))
  {
    hide Get, Store, StoreAddr, StoreStr, StoreList, SetPath, Mark, Count, Line, Lines, Show, ShowAddr, ShowStr,
         Place;
    GetsPlaced(c);
    StoresPlaced(c);
    PrintsPlaced(c);
  }

  lemma ReadIpStructPlaced(c: Ctx, n: StructLen, x: St)
    requires Fits(c, x) && Clear(c, ReadIpStruct(n, x))
    ensures ReadIpStruct(n, Place(c, x)) == Placed(c, ReadIpStruct(n, x))
  {
    hide Get, Store, StoreStr, Line, Show, Place;
    GetsPlaced(c);
    StoresPlaced(c);
    PrintsPlaced(c);
  }

  lemma NextStringPlaced(c: Ctx, room: BufLen, x: St)
    requires Fits(c, x) && Clear(c, NextString(room, x))
    ensures NextString(room, Place(c, x)) == Placed(c, NextString(room, x))
  {
    hide Get, Store, StoreAddr, StoreStr, StoreList, SetPath, Mark, Count, Line, Lines, Show, ShowAddr, ShowStr,
         Place;
    GetsPlaced(c);
    StoresPlaced(c);
    PrintsPlaced(c);
  }

  lemma ReadAddrPlaced(c: Ctx, a: AddrSlot, x: St)
    requires Fits(c, x) && Clear(c, ReadAddr(a, x))
    ensures ReadAddr(a, Place(c, x)) == Placed(c, ReadAddr(a, x))
  {
    hide Get, Store, StoreAddr, StoreStr, StoreList, SetPath, Mark, Count, Line, Lines, Show, ShowAddr, ShowStr,
         Place;
    GetsPlaced(c);
    StoresPlaced(c);
    PrintsPlaced(c);
  }

  lemma ReadStrPlaced(c: Ctx, s: StrSlot, room: BufLen, x: St)
    requires Fits(c, x) && Clear(c, ReadStr(s, room, x))
    ensures ReadStr(s, room, Place(c, x)) == Placed(c, ReadStr(s, room, x))
  {
    hide Get, Store, StoreAddr, StoreStr, StoreList, SetPath, Mark, Count, Line, Lines, Show, ShowAddr, ShowStr,
         Place;
    GetsPlaced(c);
    StoresPlaced(c);
    PrintsPlaced(c);
  }

  lemma ReadPathV2Placed(c: Ctx, x: St)
    requires Fits(c, x) && Clear(c, ReadPathV2(x))
    ensures ReadPathV2(Place(c, x)) == Placed(c, ReadPathV2(x))
  {
    hide Get, Store, StoreAddr, StoreStr, StoreList, SetPath, Mark, Count, Line, Lines, Show, ShowAddr, ShowStr,
         Place;
    GetsPlaced(c);
    StoresPlaced(c);
    PrintsPlaced(c);
  }

  lemma ReadCommunitiesPlaced(c: Ctx, x: St)
    requires Fits(c, x) && Clear(c, ReadCommunities(x))
    ensures ReadCommunities(Place(c, x)) == Placed(c, ReadCommunities(x))
  {
    hide Get, Store, StoreAddr, StoreStr, StoreList, SetPath, Mark, Count, Line, Lines, Show, ShowAddr, ShowStr,
         Place;
    GetsPlaced(c);
    StoresPlaced(c);
    PrintsPlaced(c);
  }

  lemma ReadStackPlaced(c: Ctx, s: StackName, x: St)
    requires Fits(c, x) && Clear(c, ReadStack(s, x))
    ensures ReadStack(s, Place(c, x)) == Placed(c, ReadStack(s, x))
  {
    hide Get, Store, StoreAddr, StoreStr, StoreList, SetPath, Mark, Count, Line, Lines, Show, ShowAddr, ShowStr,
         Place;
    GetsPlaced(c);
    StoresPlaced(c);
    PrintsPlaced(c);
  }

  lemma ReadHeaderBytesPlaced(c: Ctx, x: St)
    requires Fits(c, x) && Clear(c, ReadHeaderBytes(x))
    ensures ReadHeaderBytes(Place(c, x)) == Placed(c, ReadHeaderBytes(x))
  {
    hide Get, Store, StoreAddr, StoreStr, StoreList, SetPath, Mark, Count, Line, Lines, Show, ShowAddr, ShowStr,
         Place;
    GetsPlaced(c);
    StoresPlaced(c);
    PrintsPlaced(c);
  }

  lemma DecodeHeaderPlaced(c: Ctx, x: St)
    requires Fits(c, x) && Clear(c, DecodeHeader(x))
    ensures DecodeHeader(Place(c, x)) == Placed(c, DecodeHeader(x))
  {
    hide Get, Store, StoreAddr, StoreStr, StoreList, SetPath, Mark, Count, Line, Lines, Show, ShowAddr, ShowStr,
         Place;
    GetsPlaced(c);
    StoresPlaced(c);
    PrintsPlaced(c);
  }

  // The AS path, by induction over the two counts.

  lemma {:induction false} ReadAsNumbersPlaced(c: Ctx, i: nat, len: u32, first: bool, last: bool, kind: u32, x: St)
    requires Fits(c, x) && Clear(c, ReadAsNumbers(i, len, first, last, kind, x))
    ensures ReadAsNumbers(i, len, first, last, kind, Place(c, x))
         == Placed(c, ReadAsNumbers(i, len, first, last, kind, x))
    decreases len - i
  {
    hide Get, TakeAsNumber, Place;
    if i >= len {
    } else {
      GetsPlaced(c);
      var g := Get(1, x);
      if g.Got? {
        AsNumberPlaced(c, i, len, first, last, kind, g.words[0], g.next);
        ReadAsNumbersPlaced(c, i + 1, len, first, last, kind,
                            TakeAsNumber(i, len, first, last, kind, g.words[0], g.next));
      }
    }
  }

  lemma AsNumberPlaced(c: Ctx, i: nat, len: u32, first: bool, last: bool, kind: u32, n: u32, x: St)
    requires Fits(c, x)
    ensures TakeAsNumber(i, len, first, last, kind, n, Place(c, x))
         == Place(c, TakeAsNumber(i, len, first, last, kind, n, x))
  {
    hide Store, SetPath, Count, Lines, Place;
    StoresPlaced(c);
    PrintsPlaced(c);
  }

  lemma ReadSegmentPlaced(c: Ctx, seg: nat, total: u32, x: St)
    requires Fits(c, x) && Clear(c, ReadSegment(seg, total, x))
    ensures ReadSegment(seg, total, Place(c, x)) == Placed(c, ReadSegment(seg, total, x))
  {
    hide Get, SetPath, Line, Count, ReadAsNumbers, Place;
    GetsPlaced(c);
    StoresPlaced(c);
    PrintsPlaced(c);
    var g := Get(1, x);
    if g.Got? && Get(1, g.next).Got? {
      var h := Get(1, g.next);
      var z := SetPath(h.next.path + [Segment(g.words[0], [])], h.next);
      ReadAsNumbersPlaced(c, 0, h.words[0], seg == 0, seg + 1 == total, g.words[0], z);
    }
  }

  lemma {:induction false} ReadSegmentsPlaced(c: Ctx, seg: nat, total: u32, x: St)
    requires Fits(c, x) && Clear(c, ReadSegments(seg, total, x))
    ensures ReadSegments(seg, total, Place(c, x)) == Placed(c, ReadSegments(seg, total, x))
    decreases total - seg
  {
    hide ReadSegment, Place;
    if seg >= total {
    } else {
      ReadSegmentPlaced(c, seg, total, x);
      var o := ReadSegment(seg, total, x);
      if o.sig.Fine? {
        ReadSegmentsPlaced(c, seg + 1, total, o.st);
      }
    }
  }

  lemma ReadPathPlaced(c: Ctx, x: St)
    requires Fits(c, x) && Clear(c, ReadPath(x))
    ensures ReadPath(Place(c, x)) == Placed(c, ReadPath(x))
  {
    hide Get, Store, SetPath, Line, ReadSegments, Place;
    GetsPlaced(c);
    StoresPlaced(c);
    PrintsPlaced(c);
    var g := Get(1, x);
    if g.Got? && g.words[0] != 0 {
      ReadSegmentsPlaced(c, 0, g.words[0], Line(PathPiece(PathStart), ClearEnds(g.next)));
    }
  }

  // The records.

  lemma PartsPlaced(c: Ctx)
    ensures forall d, x {:trigger Read(d, Place(c, x))} | Fits(c, x) && Clear(c, Read(d, x)) ::
              Read(d, Place(c, x)) == Placed(c, Read(d, x))
    ensures forall a, x {:trigger ReadAddr(a, Place(c, x))} | Fits(c, x) && Clear(c, ReadAddr(a, x)) ::
              ReadAddr(a, Place(c, x)) == Placed(c, ReadAddr(a, x))
    ensures forall s, room: BufLen, x {:trigger ReadStr(s, room, Place(c, x))}
              | Fits(c, x) && Clear(c, ReadStr(s, room, x)) ::
              ReadStr(s, room, Place(c, x)) == Placed(c, ReadStr(s, room, x))
    ensures forall x {:trigger ReadPath(Place(c, x))} | Fits(c, x) && Clear(c, ReadPath(x)) ::
              ReadPath(Place(c, x)) == Placed(c, ReadPath(x))
    ensures forall x {:trigger ReadPathV2(Place(c, x))} | Fits(c, x) && Clear(c, ReadPathV2(x)) ::
              ReadPathV2(Place(c, x)) == Placed(c, ReadPathV2(x))
    ensures forall x {:trigger ReadCommunities(Place(c, x))} | Fits(c, x) && Clear(c, ReadCommunities(x)) ::
              ReadCommunities(Place(c, x)) == Placed(c, ReadCommunities(x))
    ensures forall s, x {:trigger ReadStack(s, Place(c, x))} | Fits(c, x) && Clear(c, ReadStack(s, x)) ::
              ReadStack(s, Place(c, x)) == Placed(c, ReadStack(s, x))
    ensures forall x {:trigger ReadHeaderBytes(Place(c, x))} | Fits(c, x) && Clear(c, ReadHeaderBytes(x)) ::
              ReadHeaderBytes(Place(c, x)) == Placed(c, ReadHeaderBytes(x))
    ensures forall x {:trigger DecodeHeader(Place(c, x))} | Fits(c, x) && Clear(c, DecodeHeader(x)) ::
              DecodeHeader(Place(c, x)) == Placed(c, DecodeHeader(x))
    ensures forall x {:trigger Next32(Place(c, x))} | Fits(c, x) && Clear(c, Next32(x)) ::
              Next32(Place(c, x)) == Placed(c, Next32(x))
    ensures forall x {:trigger Next64(Place(c, x))} | Fits(c, x) && Clear(c, Next64(x)) ::
              Next64(Place(c, x)) == Placed(c, Next64(x))
  {
    hide *;
    forall d, x | Fits(c, x) && Clear(c, Read(d, x))
      ensures Read(d, Place(c, x)) == Placed(c, Read(d, x))
    {
      ReadPlaced(c, d, x);
    }
    forall a, x | Fits(c, x) && Clear(c, ReadAddr(a, x))
      ensures ReadAddr(a, Place(c, x)) == Placed(c, ReadAddr(a, x))
    {
      ReadAddrPlaced(c, a, x);
    }
    forall s, room: BufLen, x | Fits(c, x) && Clear(c, ReadStr(s, room, x))
      ensures ReadStr(s, room, Place(c, x)) == Placed(c, ReadStr(s, room, x))
    {
      ReadStrPlaced(c, s, room, x);
    }
    forall x | Fits(c, x) && Clear(c, ReadPath(x))
      ensures ReadPath(Place(c, x)) == Placed(c, ReadPath(x))
    {
      ReadPathPlaced(c, x);
    }
    forall x | Fits(c, x) && Clear(c, ReadPathV2(x))
      ensures ReadPathV2(Place(c, x)) == Placed(c, ReadPathV2(x))
    {
      ReadPathV2Placed(c, x);
    }
    forall x | Fits(c, x) && Clear(c, ReadCommunities(x))
      ensures ReadCommunities(Place(c, x)) == Placed(c, ReadCommunities(x))
    {
      ReadCommunitiesPlaced(c, x);
    }
    forall s, x | Fits(c, x) && Clear(c, ReadStack(s, x))
      ensures ReadStack(s, Place(c, x)) == Placed(c, ReadStack(s, x))
    {
      ReadStackPlaced(c, s, x);
    }
    forall x | Fits(c, x) && Clear(c, ReadHeaderBytes(x))
      ensures ReadHeaderBytes(Place(c, x)) == Placed(c, ReadHeaderBytes(x))
    {
      ReadHeaderBytesPlaced(c, x);
    }
    forall x | Fits(c, x) && Clear(c, DecodeHeader(x))
      ensures DecodeHeader(Place(c, x)) == Placed(c, DecodeHeader(x))
    {
      DecodeHeaderPlaced(c, x);
    }
    forall x | Fits(c, x) && Clear(c, Next32(x))
      ensures Next32(Place(c, x)) == Placed(c, Next32(x))
    {
      Next32Placed(c, x);
    }
    forall x | Fits(c, x) && Clear(c, Next64(x))
      ensures Next64(Place(c, x)) == Placed(c, Next64(x))
    {
      Next64Placed(c, x);
    }
  }

  lemma SwitchPlaced(c: Ctx, x: St)
    requires Fits(c, x) && Clear(c, Switch(x))
    ensures Switch(Place(c, x)) == Placed(c, Switch(x))
  {
    hide Read, ReadAddr, ReadStr, ReadPath, ReadPathV2, ReadCommunities, ReadStack, ReadHeaderBytes, DecodeHeader,
         Mark, Line, Show, ShowAddr, ShowStr, Place;
    PartsPlaced(c);
    StoresPlaced(c);
    PrintsPlaced(c);
  }

  lemma RouterPlaced(c: Ctx, x: St)
    requires Fits(c, x) && Clear(c, Router(x))
    ensures Router(Place(c, x)) == Placed(c, Router(x))
  {
    hide Read, ReadAddr, ReadStr, ReadPath, ReadPathV2, ReadCommunities, ReadStack, ReadHeaderBytes, DecodeHeader,
         Mark, Line, Show, ShowAddr, ShowStr, Place;
    PartsPlaced(c);
    StoresPlaced(c);
    PrintsPlaced(c);
  }

  lemma OwnAsesPlaced(c: Ctx, x: St)
    requires Fits(c, x) && Clear(c, OwnAses(x))
    ensures OwnAses(Place(c, x)) == Placed(c, OwnAses(x))
  {
    hide Read, ReadAddr, ReadStr, ReadPath, ReadPathV2, ReadCommunities, ReadStack, ReadHeaderBytes, DecodeHeader,
         Mark, Line, Show, ShowAddr, ShowStr, Place;
    PartsPlaced(c);
    StoresPlaced(c);
    PrintsPlaced(c);
  }

  lemma BgpNextHopOfPlaced(c: Ctx, x: St)
    requires Fits(c, x) && Clear(c, BgpNextHopOf(x))
    ensures BgpNextHopOf(Place(c, x)) == Placed(c, BgpNextHopOf(x))
  {
    hide Read, ReadAddr, ReadStr, ReadPath, ReadPathV2, ReadCommunities, ReadStack, ReadHeaderBytes, DecodeHeader,
         Mark, Line, Show, ShowAddr, ShowStr, Place;
    PartsPlaced(c);
    StoresPlaced(c);
    PrintsPlaced(c);
  }

  lemma CharsetPlaced(c: Ctx, d: NumSlot, x: St)
    requires Fits(c, x) && Clear(c, Charset(d, x))
    ensures Charset(d, Place(c, x)) == Placed(c, Charset(d, x))
  {
    hide Read, ReadAddr, ReadStr, ReadPath, ReadPathV2, ReadCommunities, ReadStack, ReadHeaderBytes, DecodeHeader,
         Mark, Line, Show, ShowAddr, ShowStr, Place;
    PartsPlaced(c);
    StoresPlaced(c);
    PrintsPlaced(c);
  }

  lemma UserPlaced(c: Ctx, x: St)
    requires Fits(c, x) && Clear(c, User(x))
    ensures User(Place(c, x)) == Placed(c, User(x))
  {
    hide Charset, ReadStr, Mark, Line, ShowStr, Place;
    PartsPlaced(c);
    StoresPlaced(c);
    PrintsPlaced(c);
    var y := Line(Title(UserRecord), x);
    var o := Charset(SrcUserCharset, y);
    if o.sig.Fine? && ReadStr(SrcUser, USER_LEN, o.st).sig.Fine? {
      CharsetPlaced(c, DstUserCharset, ReadStr(SrcUser, USER_LEN, o.st).st);
    }
    CharsetPlaced(c, SrcUserCharset, y);
  }

  lemma HostOfPlaced(c: Ctx, x: St)
    requires Fits(c, x) && Clear(c, HostOf(x))
    ensures HostOf(Place(c, x)) == Placed(c, HostOf(x))
  {
    hide Read, ReadAddr, ReadStr, ReadPath, ReadPathV2, ReadCommunities, ReadStack, ReadHeaderBytes, DecodeHeader,
         Mark, Line, Show, ShowAddr, ShowStr, Place;
    PartsPlaced(c);
    StoresPlaced(c);
    PrintsPlaced(c);
  }

  lemma UrlOfPlaced(c: Ctx, x: St)
    requires Fits(c, x) && Clear(c, UrlOf(x))
    ensures UrlOf(Place(c, x)) == Placed(c, UrlOf(x))
  {
    hide HostOf, Read, ReadStr, Mark, Line, Show, ShowStr, Place;
    PartsPlaced(c);
    StoresPlaced(c);
    PrintsPlaced(c);
    var o := Read(UrlDirection, Line(Title(UrlRecord), x));
    if o.sig.Fine? {
      var p := ReadStr(Url, URL_LEN, Show(UrlDirection, o.st));
      if p.sig.Fine? {
        HostOfPlaced(c, ShowStr(Url, p.st));
      }
    }
  }

  lemma MplsPlaced(c: Ctx, x: St)
    requires Fits(c, x) && Clear(c, Mpls(x))
    ensures Mpls(Place(c, x)) == Placed(c, Mpls(x))
  {
    hide Read, ReadAddr, ReadStr, ReadPath, ReadPathV2, ReadCommunities, ReadStack, ReadHeaderBytes, DecodeHeader,
         Mark, Line, Show, ShowAddr, ShowStr, Place;
    PartsPlaced(c);
    StoresPlaced(c);
    PrintsPlaced(c);
  }

  lemma NatPlaced(c: Ctx, x: St)
    requires Fits(c, x) && Clear(c, Nat(x))
    ensures Nat(Place(c, x)) == Placed(c, Nat(x))
  {
    hide Read, ReadAddr, ReadStr, ReadPath, ReadPathV2, ReadCommunities, ReadStack, ReadHeaderBytes, DecodeHeader,
         Mark, Line, Show, ShowAddr, ShowStr, Place;
    PartsPlaced(c);
    StoresPlaced(c);
    PrintsPlaced(c);
  }

  lemma StrippedOfPlaced(c: Ctx, x: St)
    requires Fits(c, x) && Clear(c, StrippedOf(x))
    ensures StrippedOf(Place(c, x)) == Placed(c, StrippedOf(x))
  {
    hide Read, ReadAddr, ReadStr, ReadPath, ReadPathV2, ReadCommunities, ReadStack, ReadHeaderBytes, DecodeHeader,
         Mark, Line, Show, ShowAddr, ShowStr, Place;
    PartsPlaced(c);
    StoresPlaced(c);
    PrintsPlaced(c);
  }

  lemma SampledPacketPlaced(c: Ctx, x: St)
    requires Fits(c, x) && Clear(c, SampledPacket(x))
    ensures SampledPacket(Place(c, x)) == Placed(c, SampledPacket(x))
  {
    hide StrippedOf, Read, ReadHeaderBytes, DecodeHeader, Line, Show, Place;
    PartsPlaced(c);
    StoresPlaced(c);
    PrintsPlaced(c);
    var o := Read(HeaderProtocol, Line(Title(HeaderRecord), x));
    if o.sig.Fine? {
      var p := Read(SampledPacketSize, Show(HeaderProtocol, o.st));
      if p.sig.Fine? {
        StrippedOfPlaced(c, Show(SampledPacketSize, p.st));
      }
    }
  }

  lemma GatewayPathPlaced(c: Ctx, x: St)
    requires Fits(c, x) && Clear(c, GatewayPath(x))
    ensures GatewayPath(Place(c, x)) == Placed(c, GatewayPath(x))
  {
    hide BgpNextHopOf, OwnAses, Read, ReadAddr, ReadStr, ReadPath, ReadPathV2, ReadCommunities, ReadStack,
         ReadHeaderBytes, DecodeHeader, Mark, Line, Show, ShowAddr, ShowStr, Place;
    PartsPlaced(c);
    StoresPlaced(c);
    PrintsPlaced(c);
    BgpNextHopOfPlaced(c, x);
    var o := BgpNextHopOf(x);
    if o.sig.Fine? {
      OwnAsesPlaced(c, o.st);
    }
  }

  lemma GatewayPlaced(c: Ctx, x: St)
    requires Fits(c, x) && Clear(c, Gateway(x))
    ensures Gateway(Place(c, x)) == Placed(c, Gateway(x))
  {
    hide GatewayPath, Read, ReadAddr, ReadStr, ReadPath, ReadPathV2, ReadCommunities, ReadStack, ReadHeaderBytes,
         DecodeHeader, Mark, Line, Show, ShowAddr, ShowStr, Place;
    GatewayPathPlaced(c, Line(Title(GatewayRecord), x));
    PartsPlaced(c);
    StoresPlaced(c);
    PrintsPlaced(c);
  }

  lemma GatewayV2Placed(c: Ctx, x: St)
    requires Fits(c, x) && Clear(c, GatewayV2(x))
    ensures GatewayV2(Place(c, x)) == Placed(c, GatewayV2(x))
  {
    hide OwnAses, Read, ReadAddr, ReadStr, ReadPath, ReadPathV2, ReadCommunities, ReadStack, ReadHeaderBytes,
         DecodeHeader, Mark, Line, Show, ShowAddr, ShowStr, Place;
    OwnAsesPlaced(c, Line(Title(GatewayRecord), x));
    PartsPlaced(c);
    StoresPlaced(c);
    PrintsPlaced(c);
  }

  lemma ReadPartPlaced(c: Ctx, p: Part, x: St)
    requires Fits(c, x) && Clear(c, ReadPart(p, x))
    ensures ReadPart(p, Place(c, x)) == Placed(c, ReadPart(p, x))
  {
    hide Next32, Next64, NextStatus, NextString, NextBytes, ReadIpStruct, ReadStack, SampledPacket, Mark, Place;
    match p
    case W => Next32Placed(c, x);
    case D => Next64Placed(c, x);
    case Status => NextStatusPlaced(c, x);
    case S(room) => NextStringPlaced(c, room, x);
    case B(n) => NextBytesPlaced(c, n, x);
    case IpStruct(size) => ReadIpStructPlaced(c, size, x);
    case Stack(name) => ReadStackPlaced(c, name, x);
    case Packet => SampledPacketPlaced(c, x);
    case Flagged(_) => StoresPlaced(c);
  }

  lemma {:induction false} ReadPartsPlaced(c: Ctx, ps: seq<Part>, x: St)
    requires Fits(c, x) && Clear(c, ReadParts(ps, x))
    ensures ReadParts(ps, Place(c, x)) == Placed(c, ReadParts(ps, x))
    decreases |ps|
  {
    hide ReadPart, Place;
    if ps == [] {
    } else {
      ReadPartPlaced(c, ps[0], x);
      var o := ReadPart(ps[0], x);
      if o.sig.Fine? {
        ReadPartsPlaced(c, ps[1..], o.st);
      }
    }
  }

  lemma ReadRecordPlaced(c: Ctx, t: u32, x: St)
    requires Fits(c, x) && Clear(c, ReadRecord(t, x))
    ensures ReadRecord(t, Place(c, x)) == Placed(c, ReadRecord(t, x))
  {
    hide SampledPacket, Switch, Router, Gateway, User, UrlOf, Mpls, Nat, ReadParts, FlatParts, Place;
    match t
    case 1 => SampledPacketPlaced(c, x);
    case 1001 => SwitchPlaced(c, x);
    case 1002 => RouterPlaced(c, x);
    case 1003 => GatewayPlaced(c, x);
    case 1004 => UserPlaced(c, x);
    case 1005 => UrlOfPlaced(c, x);
    case 1006 => MplsPlaced(c, x);
    case 1007 => NatPlaced(c, x);
    case _ => ReadPartsPlaced(c, FlatParts(t), x);
  }

  // Flow samples.

  lemma SkipRecordPlaced(c: Ctx, inSample: bool, tag: u32, len: u32, x: St)
    requires Fits(c, x) && Clear(c, SkipRecord(inSample, tag, len, x))
    ensures SkipRecord(inSample, tag, len, Place(c, x)) == Placed(c, SkipRecord(inSample, tag, len, x))
  {
    hide Get, Line, Place;
    GetsPlaced(c);
    PrintsPlaced(c);
  }

  lemma ReadElementPlaced(c: Ctx, x: St)
    requires Fits(c, x) && Clear(c, ReadElement(x))
    ensures ReadElement(Place(c, x)) == Placed(c, ReadElement(x))
  {
    hide Get, Line, Count, ReadRecord, SkipRecord, Known, Place;
    GetsPlaced(c);
    PrintsPlaced(c);
    StoresPlaced(c);
    LeftPlaced(c);
    var g := Get(1, x);
    if g.Got? {
      var h := Get(1, Line(BlockTag(g.words[0]), g.next));
      if h.Got? {
        if Known(g.words[0]) {
          ReadRecordPlaced(c, g.words[0], h.next);
        } else {
          SkipRecordPlaced(c, false, g.words[0], h.words[0], h.next);
        }
      }
    }
  }

  /** Both contexts have the same number of words between two states. */
  lemma LeftPlaced(c: Ctx)
    ensures forall x {:trigger Place(c, x)} | Fits(c, x) ::
              |Place(c, x).rest| - |x.rest| == if c.cut then |c.tail| - c.keep else 0
  {
  }

  lemma {:induction false} ReadElementsPlaced(c: Ctx, n: nat, x: St)
    requires Fits(c, x) && Clear(c, ReadElements(n, x))
    ensures ReadElements(n, Place(c, x)) == Placed(c, ReadElements(n, x))
  {
    hide ReadElement, Place;
    if n == 0 {
    } else {
      ReadElementPlaced(c, x);
      var o := ReadElement(x);
      if o.sig.Fine? {
        ReadElementsPlaced(c, n - 1, o.st);
      }
    }
  }

  lemma ReadSourceOfPlaced(c: Ctx, expanded: bool, x: St)
    requires Fits(c, x) && Clear(c, ReadSourceOf(expanded, x))
    ensures ReadSourceOf(expanded, Place(c, x)) == Placed(c, ReadSourceOf(expanded, x))
  {
    hide Get, Read, Store, Place;
    GetsPlaced(c);
    PartsPlaced(c);
    StoresPlaced(c);
  }

  lemma ReadRatesPlaced(c: Ctx, x: St)
    requires Fits(c, x) && Clear(c, ReadRates(x))
    ensures ReadRates(Place(c, x)) == Placed(c, ReadRates(x))
  {
    hide Read, Place;
    PartsPlaced(c);
  }

  lemma ReadPortsOfPlaced(c: Ctx, expanded: bool, x: St)
    requires Fits(c, x) && Clear(c, ReadPortsOf(expanded, x))
    ensures ReadPortsOf(expanded, Place(c, x)) == Placed(c, ReadPortsOf(expanded, x))
  {
    hide Get, Read, Store, Place;
    GetsPlaced(c);
    PartsPlaced(c);
    StoresPlaced(c);
  }

  lemma ShowsPlaced(c: Ctx)
    ensures forall x {:trigger ShowSource(Place(c, x))} | Fits(c, x) ::
              ShowSource(Place(c, x)) == Place(c, ShowSource(x))
    ensures forall x {:trigger ShowRates(Place(c, x))} | Fits(c, x) ::
              ShowRates(Place(c, x)) == Place(c, ShowRates(x))
    ensures forall input, x {:trigger ShowPort(input, Place(c, x))} | Fits(c, x) ::
              ShowPort(input, Place(c, x)) == Place(c, ShowPort(input, x))
  {
    hide Line, Show, Place;
    PrintsPlaced(c);
  }

  lemma ReadFlowTopPlaced(c: Ctx, expanded: bool, x: St)
    requires Fits(c, x) && Clear(c, ReadFlowTop(expanded, x))
    ensures ReadFlowTop(expanded, Place(c, x)) == Placed(c, ReadFlowTop(expanded, x))
  {
    hide Read, Show, ReadSourceOf, ShowSource, Place;
    PartsPlaced(c);
    PrintsPlaced(c);
    ShowsPlaced(c);
    var o := Read(SamplesGenerated, x);
    if o.sig.Fine? {
      ReadSourceOfPlaced(c, expanded, Show(SamplesGenerated, o.st));
    }
  }

  lemma ReadFlowHeadPlaced(c: Ctx, expanded: bool, x: St)
    requires Fits(c, x) && Clear(c, ReadFlowHead(expanded, x))
    ensures ReadFlowHead(expanded, Place(c, x)) == Placed(c, ReadFlowHead(expanded, x))
  {
    hide ReadFlowTop, ReadRates, ShowRates, ReadPortsOf, ShowPort, Place;
    ShowsPlaced(c);
    ReadFlowTopPlaced(c, expanded, x);
    var o := ReadFlowTop(expanded, x);
    if o.sig.Fine? {
      ReadRatesPlaced(c, o.st);
      o := ReadRates(o.st);
      if o.sig.Fine? {
        ReadPortsOfPlaced(c, expanded, ShowRates(o.st));
      }
    }
  }

  lemma ReadFlowSamplePlaced(c: Ctx, expanded: bool, x: St)
    requires Fits(c, x) && Clear(c, ReadFlowSample(expanded, x))
    ensures ReadFlowSample(expanded, Place(c, x)) == Placed(c, ReadFlowSample(expanded, x))
  {
    hide Get, Line, ReadFlowHead, ReadElements, Place;
    GetsPlaced(c);
    PrintsPlaced(c);
    LeftPlaced(c);
    var g := Get(1, Line(Title(FlowSampleLine), x));
    if g.Got? {
      ReadFlowHeadPlaced(c, expanded, g.next);
      var o := ReadFlowHead(expanded, g.next);
      if o.sig.Fine? {
        var h := Get(1, o.st);
        if h.Got? {
          ReadElementsPlaced(c, h.words[0], h.next);
        }
      }
    }
  }

  lemma ReadExtendedPlaced(c: Ctx, x: St)
    requires Fits(c, x) && Clear(c, ReadExtended(x))
    ensures ReadExtended(Place(c, x)) == Placed(c, ReadExtended(x))
  {
    hide Get, Count, Switch, Router, GatewayV2, Gateway, User, UrlOf, Place;
    GetsPlaced(c);
    StoresPlaced(c);
    var g := Get(1, x);
    if g.Got? {
      match g.words[0]
      case 1 => SwitchPlaced(c, g.next);
      case 2 => RouterPlaced(c, g.next);
      case 3 => if Version(g.next) == 2 { GatewayV2Placed(c, g.next); } else { GatewayPlaced(c, g.next); }
      case 4 => UserPlaced(c, g.next);
      case 5 => UrlOfPlaced(c, g.next);
      case _ =>
    }
  }

  lemma {:induction false} ReadExtendedsPlaced(c: Ctx, n: nat, x: St)
    requires Fits(c, x) && Clear(c, ReadExtendeds(n, x))
    ensures ReadExtendeds(n, Place(c, x)) == Placed(c, ReadExtendeds(n, x))
  {
    hide ReadExtended, Place;
    if n == 0 {
    } else {
      ReadExtendedPlaced(c, x);
      var o := ReadExtended(x);
      if o.sig.Fine? {
        ReadExtendedsPlaced(c, n - 1, o.st);
      }
    }
  }

  lemma ReadPacketDataPlaced(c: Ctx, x: St)
    requires Fits(c, x) && Clear(c, ReadPacketData(x))
    ensures ReadPacketData(Place(c, x)) == Placed(c, ReadPacketData(x))
  {
    hide Read, SampledPacket, ReadIpStruct, Place;
    PartsPlaced(c);
    var o := Read(PacketDataTag, x);
    if o.sig.Fine? {
      match Num(o.st.f, PacketDataTag)
      case 1 => SampledPacketPlaced(c, o.st);
      case 2 => ReadIpStructPlaced(c, 32, o.st);
      case 3 => ReadIpStructPlaced(c, 56, o.st);
      case _ =>
    }
  }

  lemma ReadFlowHeadV24Placed(c: Ctx, x: St)
    requires Fits(c, x) && Clear(c, ReadFlowHeadV24(x))
    ensures ReadFlowHeadV24(Place(c, x)) == Placed(c, ReadFlowHeadV24(x))
  {
    hide Read, Show, ReadFlowTop, ReadRates, ShowRates, Place;
    PartsPlaced(c);
    PrintsPlaced(c);
    ShowsPlaced(c);
    ReadFlowTopPlaced(c, false, x);
    var o := ReadFlowTop(false, x);
    if o.sig.Fine? {
      ReadRatesPlaced(c, o.st);
    }
  }

  lemma ReadFlowSampleV24Placed(c: Ctx, x: St)
    requires Fits(c, x) && Clear(c, ReadFlowSampleV24(x))
    ensures ReadFlowSampleV24(Place(c, x)) == Placed(c, ReadFlowSampleV24(x))
  {
    hide Read, Line, ReadFlowHeadV24, ReadPacketData, ReadExtendeds;
    PartsPlaced(c);
    PrintsPlaced(c);
    var y := Line(Title(FlowSampleLine), x);
    ReadFlowHeadV24Placed(c, y);
    var o := ReadFlowHeadV24(y);
    if o.sig.Fine? {
      ReadPacketDataPlaced(c, o.st);
      o := ReadPacketData(o.st);
      if o.sig.Fine? {
        var z := ClearFlags(o.st);
        assert ClearFlags(Place(c, o.st)) == Place(c, z);
        o := Read(NumExtended, z);
        if o.sig.Fine? {
          ReadExtendedsPlaced(c, Num(o.st.f, NumExtended), o.st);
        }
      }
    }
  }

  // Datagrams.

  lemma ReadSampleBodyPlaced(c: Ctx, x: St)
    requires Fits(c, x) && Clear(c, ReadSampleBody(x))
    ensures ReadSampleBody(Place(c, x)) == Placed(c, ReadSampleBody(x))
  {
    hide Get, ReadFlowSample, ReadFlowSampleV24, SkipRecord, Place;
    GetsPlaced(c);
    var t := Num(x.f, SampleType);
    if Version(x) < 5 {
      if t == 1 {
        ReadFlowSampleV24Placed(c, x);
      }
    } else if t == 1 || t == 3 {
      ReadFlowSamplePlaced(c, t == 3, x);
    } else if t != 2 && t != 4 {
      var g := Get(1, x);
      if g.Got? {
        SkipRecordPlaced(c, true, t, g.words[0], g.next);
      }
    }
  }

  lemma ReadSamplePlaced(c: Ctx, x: St)
    requires Fits(c, x) && Clear(c, ReadSample(x))
    ensures ReadSample(Place(c, x)) == Placed(c, ReadSample(x))
  {
    hide Read, Line, Count, ReadSampleBody, Place;
    PartsPlaced(c);
    PrintsPlaced(c);
    StoresPlaced(c);
    var o := Read(SampleType, x);
    if o.sig.Fine? {
      ReadSampleBodyPlaced(c, Line(SampleTag(Num(o.st.f, SampleType)), o.st));
    }
  }

  lemma {:induction false} ReadSamplesPlaced(c: Ctx, n: nat, x: St)
    requires Fits(c, x) && Clear(c, ReadSamples(n, x))
    ensures ReadSamples(n, Place(c, x)) == Placed(c, ReadSamples(n, x))
  {
    hide ReadSample, Place;
    if n == 0 {
    } else {
      ReadSamplePlaced(c, x);
      var o := ReadSample(x);
      if o.sig.Fine? {
        ReadSamplesPlaced(c, n - 1, o.st);
      }
    }
  }

  lemma ReadDatagramHeadPlaced(c: Ctx, x: St)
    requires Fits(c, x) && Clear(c, ReadDatagramHead(x))
    ensures ReadDatagramHead(Place(c, x)) == Placed(c, ReadDatagramHead(x))
  {
    hide Read, ReadAddr, Show, Place;
    PartsPlaced(c);
    PrintsPlaced(c);
  }
}
