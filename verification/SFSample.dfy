/** The sample structure as an object: a buffer, the cursor datap into it, and
    the fields that the readers overwrite in place. Each method is one function
    of the program; its contract says that it does to the object exactly what
    the reader function of the same record does to the object's view. */
module SampleObject {
  import opened Xdr
  import opened SampleState
  import opened Reader
  import opened CounterObject
  import opened CounterRecords
  import opened CounterSamples
  import R = Records
  import D = FullDecode
  import F = FlowDecode

  /** In 32-bit arithmetic, skipping fails exactly when too few words are left. */
  lemma SkipLimit(skip: u32, left: nat, total: nat)
    requires left <= total <= 65536
    ensures var quads := (skip + 3) % 0x1_0000_0000 / 4;
            if skip > total || 4 * quads > left then Quads(skip) > left / 4
            else Quads(skip) <= left / 4 && quads == Quads(skip)
  {
    if skip + 3 < 0x1_0000_0000 {
      assert (skip + 3) % 0x1_0000_0000 == skip + 3;
    }
  }

  /** From one cursor to another on the same lane. */
  lemma WordsMoved(total: nat, start: nat, datap: nat)
    requires start <= datap <= total <= 65536 && start % 4 == datap % 4
    ensures (total - start) / 4 - (total - datap) / 4 == Quads(datap - start) == Quads(datap - start) % WRAPS
  {
  }

  lemma Forward(total: nat, start: nat, datap: nat)
    requires start <= total && datap <= total && start % 4 == datap % 4
    requires (total - datap) / 4 <= (total - start) / 4
    ensures start <= datap
  {
  }

  /** What lies n words behind an offset into the buffer. */
  lemma WordsAhead(raw: seq<byte>, datap: nat, n: nat)
    requires datap + 4 * n <= |raw|
    ensures Words(raw[datap..])[n..] == Words(raw[datap + 4 * n..])
    ensures Bytes(Words(raw[datap..])[..n]) == raw[datap..datap + 4 * n]
  {
    WordsAt(raw[datap..], n);
    BytesAt(raw[datap..], n);
    assert raw[datap..][4 * n..] == raw[datap + 4 * n..];
    assert raw[datap..][..4 * n] == raw[datap..datap + 4 * n];
  }

  /** The next word and what lies behind it. */
  lemma NextWord(raw: seq<byte>, datap: nat)
    requires datap + 4 <= |raw|
    ensures var ws := Words(raw[datap..]);
            && |ws| == (|raw| - datap) / 4 && ws != []
            && ws[0] == Join(raw[datap], raw[datap + 1], raw[datap + 2], raw[datap + 3])
            && ws[1..] == Words(raw[datap + 4..])
  {
    hide Join;
    assert raw[datap..][4..] == raw[datap + 4..];
  }

  lemma FirstWord(ws: seq<u32>)
    requires ws != []
    ensures var bs := Bytes(ws); |bs| >= 4 && Join(bs[0], bs[1], bs[2], bs[3]) == ws[0]
  {
  }

  class SFSample {
    const rawSample: Buffer
    var datap: nat
    var num: map<NumSlot, u32>
    var addr: map<AddrSlot, Address>
    var str: map<StrSlot, seq<byte>>
    var list: map<ListSlot, seq<u32>>
    var flags: set<Flag>
    ghost var path: AsPath
    ghost var log: seq<Event>
    ghost var work: nat
    ghost var rest: seq<u32>
    ghost var lane: nat

    /** Rest holds the words from datap on, whatever offset it has come to. */
    ghost predicate Steady()
      reads this
    {
      lane == datap % 4 && rest == D.WordsFrom(rawSample, datap)
    }

    /** The cursor has not passed the end. Only readers of counters move it off its lane
        of word boundaries, or past the end. */
    ghost predicate Valid()
      reads this
    {
      datap % 4 == lane && datap <= |rawSample| && rest == Words(rawSample[datap..])
    }

    /** The state with the cursor as an offset. */
    ghost function Place(): Cut
      reads this
    {
      Cut(Pos(datap, work), Fields(num, addr, str, list, flags), path, log)
    }

    ghost function View(): St
      reads this
    {
      St(rest, Fields(num, addr, str, list, flags), path, log, work)
    }

    constructor (raw: Buffer)
      ensures Valid() && rawSample == raw && datap == 0
      ensures View() == F.Start(Words(raw))
    {
      rawSample, datap := raw, 0;
      num, addr, str, list, flags := map[], map[], map[], map[], {};
      path, log, work, rest, lane := [], [], 0, Words(raw), 0;
      new;
      assert rawSample[0..] == raw;
    }

    // Cursor primitives.

    method GetData32() returns (sig: Signal, v: u32)
      requires Valid()
      modifies this`datap, this`rest
      ensures Valid()
      ensures var g := Get(1, old(View()));
              if g.Got? then sig == Fine && v == g.words[0] && View() == g.next
              else sig == Abort(EOS) && View() == g.st
    {
      hide Words, Join;
      if datap + 4 > |rawSample| {
        return Abort(EOS), 0;
      }
      v := Join(rawSample[datap], rawSample[datap + 1], rawSample[datap + 2], rawSample[datap + 3]);
      NextWord(rawSample, datap);
      datap, rest := datap + 4, rest[1..];
      sig := Fine;
    }

    method SkipBytes(skip: u32) returns (sig: Signal)
      requires Valid()
      modifies this`datap, this`rest
      ensures Valid()
      ensures var g := Get(Quads(skip), old(View()));
              if g.Got?
              then sig == Fine && View() == g.next && old(datap) <= datap
                && Bytes(g.words) == rawSample[old(datap)..datap]
              else sig == Abort(EOS) && View() == g.st
    {
      hide Words, Bytes;
      SkipLimit(skip, |rawSample| - datap, |rawSample|);
      var quads := (skip + 3) % 0x1_0000_0000 / 4;
      if skip > |rawSample| || datap + 4 * quads > |rawSample| {
        return Abort(EOS);
      }
      WordsAhead(rawSample, datap, quads);
      datap, rest := datap + 4 * quads, rest[quads..];
      sig := Fine;
    }

    /** Passes over an array of n words and returns it; four times n is taken in 32 bits. */
    method SkipWords(n: u32) returns (sig: Signal, words: seq<u32>)
      requires Valid()
      modifies this`datap, this`rest
      ensures Valid()
      ensures var g := Get(n % WRAPS, old(View()));
              if g.Got? then sig == Fine && words == g.words && View() == g.next
              else sig == Abort(EOS) && View() == g.st
    {
      words := [];
      ghost var before := rest;
      var start := datap;
      var bytes := 4 * n % 0x1_0000_0000;
      assert bytes == 4 * (n % WRAPS) && Quads(bytes) == n % WRAPS;
      :- SkipBytes(bytes);
      words := Words(rawSample[start..datap]);
      WordsOfBytes(before[..n % WRAPS]);
      sig := Fine;
    }

    method GetString(s: StrSlot, room: BufLen) returns (sig: Signal)
      requires Valid()
      modifies this`datap, this`rest, this`num, this`str
      ensures Valid()
      ensures ReadStr(s, room, old(View())) == Out(sig, View())
    {
      hide Words, Bytes, Get, Join, Quads;
      var len :- GetData32();
      var start := datap;
      :- SkipBytes(len);
      var readLen := if len >= room then room - 1 else len;
      str := str[s := rawSample[start..datap][..readLen]];
      num := num[LenSlot(s) := len];
      sig := Fine;
    }

    method GetAddress(a: AddrSlot) returns (sig: Signal)
      requires Valid()
      modifies this`datap, this`rest, this`addr
      ensures Valid()
      ensures ReadAddr(a, old(View())) == Out(sig, View())
    {
      hide Words, Bytes, Get;
      var kind :- GetData32();
      ghost var y := View();
      var stale := if a in addr then addr[a] else Address(0, []);
      addr := addr[a := stale.(kind := kind)];
      assert View() == StoreAddr(a, Addr(y.f, a).(kind := kind), y);
      var start, skip := datap, if kind == IP_V4 then 4 else 16;
      assert Quads(skip) == if kind == IP_V4 then 1 else 4;
      :- SkipBytes(skip);
      addr := addr[a := Address(kind, rawSample[start..datap])];
      sig := Fine;
    }

    method ReadField(d: NumSlot) returns (sig: Signal)
      requires Valid()
      modifies this`datap, this`rest, this`num
      ensures Valid()
      ensures Read(d, old(View())) == Out(sig, View())
    {
      var v :- GetData32();
      num := num[d := v];
      sig := Fine;
    }

    function Field(d: NumSlot): (v: u32)
      reads this
      ensures v == Num(View().f, d)
    {
      if d in num then num[d] else 0
    }

    // What is printed.

    ghost method Log(e: Event)
      requires Valid()
      modifies this`log
      ensures Valid() && View() == Line(e, old(View()))
    {
      log := log + [e];
    }

    ghost method LogField(d: NumSlot)
      requires Valid()
      modifies this`log
      ensures Valid() && View() == Show(d, old(View()))
    {
      Log(ShowNum(d, Field(d)));
    }

    ghost method LogAddress(a: AddrSlot)
      requires Valid()
      modifies this`log
      ensures Valid() && View() == ShowAddr(a, old(View()))
    {
      Log(ShowAddress(a, Addr(View().f, a)));
    }

    ghost method LogString(s: StrSlot)
      requires Valid()
      modifies this`log
      ensures Valid() && View() == ShowStr(s, old(View()))
    {
      Log(ShowString(s, CString(Str(View().f, s))));
    }

    method SetFlag(flag: Flag)
      requires Valid()
      modifies this`flags
      ensures Valid() && View() == Mark(flag, old(View()))
    {
      flags := flags + {flag};
    }

    // Record readers.

    method ReadExtendedSwitch() returns (sig: Signal)
      requires Valid()
      modifies this
      ensures Valid() && lane == old(lane)
      ensures R.Switch(old(View())) == Out(sig, View())
    {
      Log(Title(SwitchRecord));
      :- ReadField(InVlan);
      :- ReadField(InPriority);
      :- ReadField(OutVlan);
      :- ReadField(OutPriority);
      SetFlag(HasSwitch);
      LogField(InVlan);
      LogField(InPriority);
      LogField(OutVlan);
      LogField(OutPriority);
      sig := Fine;
    }

    method ReadExtendedRouter() returns (sig: Signal)
      requires Valid()
      modifies this
      ensures Valid() && lane == old(lane)
      ensures R.Router(old(View())) == Out(sig, View())
    {
      Log(Title(RouterRecord));
      :- GetAddress(NextHop);
      :- ReadField(SrcMask);
      :- ReadField(DstMask);
      SetFlag(HasRouter);
      LogAddress(NextHop);
      LogField(SrcMask);
      LogField(DstMask);
      sig := Fine;
    }

    method ReadOwnAses() returns (sig: Signal)
      requires Valid()
      modifies this
      ensures Valid() && lane == old(lane)
      ensures R.OwnAses(old(View())) == Out(sig, View())
    {
      sig := Fine;
      :- ReadField(MyAs);
      :- ReadField(SrcAs);
      sig := ReadField(SrcPeerAs);
    }

    method KeepPathV2(ases: seq<u32>)
      requires Valid() && ases != []
      modifies this`list, this`path, this`num
      ensures Valid()
      ensures var x := SetPath([Segment(AS_SEQUENCE, ases)], StoreList(DstAsPathList, ases, old(View())));
              View() == Store(DstAs, ases[|ases| - 1], Store(DstPeerAs, ases[0], x))
    {
      list, path := list[DstAsPathList := ases], [Segment(AS_SEQUENCE, ases)];
      num := num[DstPeerAs := ases[0]][DstAs := ases[|ases| - 1]];
    }

    method TakeAsList(len: u32) returns (sig: Signal)
      requires Valid() && len > 0
      modifies this
      ensures Valid() && lane == old(lane)
      ensures TakeListV2(len, old(View())) == Out(sig, View())
    {
      hide Words, Get, StoreList, SetPath, Join, Bytes, Quads;
      var ases :- SkipWords(len);
      if len >= WRAPS {
        return Outside(CountWraps);
      }
      KeepPathV2(ases);
      sig := Fine;
    }

    method ReadAsPathV2() returns (sig: Signal)
      requires Valid()
      modifies this
      ensures Valid() && lane == old(lane)
      ensures ReadPathV2(old(View())) == Out(sig, View())
    {
      hide Words, Get, TakeListV2, ClearEnds;
      sig := Fine;
      ForgetEnds();
      :- ReadField(DstAsPathLen);
      var len := Field(DstAsPathLen);
      if len > 0 {
        sig := TakeAsList(len);
      }
    }

    method ReadExtendedGatewayV2() returns (sig: Signal)
      requires Valid()
      modifies this
      ensures Valid() && lane == old(lane)
      ensures R.GatewayV2(old(View())) == Out(sig, View())
    {
      Log(Title(GatewayRecord));
      :- ReadOwnAses();
      :- ReadAsPathV2();
      SetFlag(HasGateway);
      LogField(MyAs);
      LogField(SrcAs);
      LogField(SrcPeerAs);
      LogField(DstAs);
      LogField(DstPeerAs);
      LogField(DstAsPathLen);
      if Field(DstAsPathLen) > 0 {
        Log(PathV2(List(View().f, DstAsPathList)));
      }
      sig := Fine;
    }

    /** Stores and prints one AS number of the path. */
    method AddAsNumber(i: nat, len: u32, first: bool, last: bool, kind: u32, asNumber: u32)
      requires Valid()
      modifies this`num, this`log, this`path, this`work
      ensures Valid()
      ensures View() == TakeAsNumber(i, len, first, last, kind, asNumber, old(View()))
    {
      // the first one is the peer, the last one the destination
      if i == 0 && first {
        num := num[DstPeerAs := asNumber];
      }
      if last && i + 1 == len {
        num := num[DstAs := asNumber];
      }
      log := log + AsPieces(i, first, kind, asNumber);
      path, work := ExtendPath(path, asNumber), work + 1;
    }

    /** The inner loop of the path: the AS numbers of one segment. */
    method ReadSegmentAses(len: u32, first: bool, last: bool, kind: u32) returns (sig: Signal)
      requires Valid()
      modifies this
      ensures Valid() && lane == old(lane)
      ensures ReadAsNumbers(0, len, first, last, kind, old(View())) == Out(sig, View())
    {
      hide Words, TakeAsNumber;
      var i: nat := 0;
      while i < len
        invariant i <= len && Valid() && lane == old(lane)
        invariant ReadAsNumbers(i, len, first, last, kind, View())
               == ReadAsNumbers(0, len, first, last, kind, old(View()))
      {
        var asNumber :- GetData32();
        AddAsNumber(i, len, first, last, kind, asNumber);
        i := i + 1;
      }
      sig := Fine;
    }

    method ReadAsPathSegment(seg: nat, segments: u32) returns (sig: Signal)
      requires Valid()
      modifies this
      ensures Valid() && lane == old(lane)
      ensures ReadSegment(seg, segments, old(View())) == Out(sig, View())
    {
      var segType :- GetData32();
      var segLen :- GetData32();
      path := path + [Segment(segType, [])];
      :- ReadSegmentAses(segLen, seg == 0, seg + 1 == segments, segType);
      if segType == AS_SET {
        Log(PathPiece(Close));
      }
      work := work + 1;
      sig := Fine;
    }

    /** The outer loop of the path. */
    method ReadAsPathSegments(segments: u32) returns (sig: Signal)
      requires Valid()
      modifies this
      ensures Valid() && lane == old(lane)
      ensures ReadSegments(0, segments, old(View())) == Out(sig, View())
    {
      var seg: nat := 0;
      while seg < segments
        invariant seg <= segments && Valid() && lane == old(lane)
        invariant ReadSegments(seg, segments, View()) == ReadSegments(0, segments, old(View()))
      {
        :- ReadAsPathSegment(seg, segments);
        seg := seg + 1;
      }
      sig := Fine;
    }

    /** Makes sure that no endpoint is remembered from an earlier record. */
    method ForgetEnds()
      requires Valid()
      modifies this`num, this`path
      ensures Valid() && View() == ClearEnds(old(View()))
    {
      num, path := num[DstPeerAs := 0][DstAs := 0], [];
    }

    method ReadAsPath() returns (sig: Signal)
      requires Valid()
      modifies this
      ensures Valid() && lane == old(lane)
      ensures ReadPath(old(View())) == Out(sig, View())
    {
      var segments :- GetData32();
      ForgetEnds();
      if segments == 0 {
        return Fine;
      }
      Log(PathPiece(PathStart));
      :- ReadAsPathSegments(segments);
      Log(PathPiece(PathEnd));
      sig := Fine;
    }

    method ReadCommunityList() returns (sig: Signal)
      requires Valid()
      modifies this
      ensures Valid() && lane == old(lane)
      ensures ReadCommunities(old(View())) == Out(sig, View())
    {
      hide Words, Get, Join, Bytes;
      sig := Fine;
      :- ReadField(CommunitiesLen);
      var len := Field(CommunitiesLen);
      var words :- SkipWords(len);
      if len >= WRAPS {
        return Outside(CountWraps);
      }
      if len > 0 {
        list := list[CommunityList := words];
      }
    }

    method ReadBgpNextHop() returns (sig: Signal)
      requires Valid()
      modifies this
      ensures Valid() && lane == old(lane)
      ensures R.BgpNextHopOf(old(View())) == Out(sig, View())
    {
      if Field(DatagramVersion) >= 5 {
        :- GetAddress(BgpNextHop);
        LogAddress(BgpNextHop);
      }
      sig := Fine;
    }

    method ReadGatewayPath() returns (sig: Signal)
      requires Valid()
      modifies this
      ensures Valid() && lane == old(lane)
      ensures R.GatewayPath(old(View())) == Out(sig, View())
    {
      sig := Fine;
      :- ReadBgpNextHop();
      :- ReadOwnAses();
      LogField(MyAs);
      LogField(SrcAs);
      LogField(SrcPeerAs);
      sig := ReadAsPath();
    }

    method ReadExtendedGateway() returns (sig: Signal)
      requires Valid()
      modifies this
      ensures Valid() && lane == old(lane)
      ensures R.Gateway(old(View())) == Out(sig, View())
    {
      hide Words, R.GatewayPath, ReadCommunities, Mark, Line;
      Log(Title(GatewayRecord));
      :- ReadGatewayPath();
      LogField(DstAs);
      LogField(DstPeerAs);
      :- ReadCommunityList();
      SetFlag(HasGateway);
      if Field(CommunitiesLen) > 0 {
        Log(Communities(List(View().f, CommunityList)));
      }
      :- ReadField(Localpref);
      LogField(Localpref);
      sig := Fine;
    }

    method ReadCharset(d: NumSlot) returns (sig: Signal)
      requires Valid()
      modifies this
      ensures Valid() && lane == old(lane)
      ensures R.Charset(d, old(View())) == Out(sig, View())
    {
      if Field(DatagramVersion) >= 5 {
        :- ReadField(d);
        LogField(d);
      }
      sig := Fine;
    }

    method ReadExtendedUser() returns (sig: Signal)
      requires Valid()
      modifies this
      ensures Valid() && lane == old(lane)
      ensures R.User(old(View())) == Out(sig, View())
    {
      Log(Title(UserRecord));
      :- ReadCharset(SrcUserCharset);
      :- GetString(SrcUser, R.USER_LEN);
      :- ReadCharset(DstUserCharset);
      :- GetString(DstUser, R.USER_LEN);
      SetFlag(HasUser);
      LogString(SrcUser);
      LogString(DstUser);
      sig := Fine;
    }

    method ReadHost() returns (sig: Signal)
      requires Valid()
      modifies this
      ensures Valid() && lane == old(lane)
      ensures R.HostOf(old(View())) == Out(sig, View())
    {
      if Field(DatagramVersion) >= 5 {
        :- GetString(Host, R.HOST_LEN);
        LogString(Host);
      }
      sig := Fine;
    }

    method ReadExtendedUrl() returns (sig: Signal)
      requires Valid()
      modifies this
      ensures Valid() && lane == old(lane)
      ensures R.UrlOf(old(View())) == Out(sig, View())
    {
      Log(Title(UrlRecord));
      :- ReadField(UrlDirection);
      LogField(UrlDirection);
      :- GetString(Url, R.URL_LEN);
      LogString(Url);
      :- ReadHost();
      SetFlag(HasUrl);
      sig := Fine;
    }

    method MplsLabelStack(name: StackName) returns (sig: Signal)
      requires Valid()
      modifies this
      ensures Valid() && lane == old(lane)
      ensures ReadStack(name, old(View())) == Out(sig, View())
    {
      hide Words, Get, Line;
      var depth :- GetData32();
      var stack :- SkipWords(depth);
      if depth >= WRAPS {
        return Outside(CountWraps);
      }
      if depth > 0 {
        Log(Labels(name, stack));
      }
      sig := Fine;
    }

    method ReadExtendedMpls() returns (sig: Signal)
      requires Valid()
      modifies this
      ensures Valid() && lane == old(lane)
      ensures R.Mpls(old(View())) == Out(sig, View())
    {
      Log(Title(MplsRecord));
      :- GetAddress(MplsNextHop);
      LogAddress(MplsNextHop);
      :- MplsLabelStack(MplsIn);
      :- MplsLabelStack(MplsOut);
      SetFlag(HasMpls);
      sig := Fine;
    }

    method ReadExtendedNat() returns (sig: Signal)
      requires Valid()
      modifies this
      ensures Valid() && lane == old(lane)
      ensures R.Nat(old(View())) == Out(sig, View())
    {
      Log(Title(NatRecord));
      :- GetAddress(NatSrc);
      LogAddress(NatSrc);
      :- GetAddress(NatDst);
      LogAddress(NatDst);
      SetFlag(HasNat);
      sig := Fine;
    }

    method ReadStripped() returns (sig: Signal)
      requires Valid()
      modifies this
      ensures Valid() && lane == old(lane)
      ensures R.StrippedOf(old(View())) == Out(sig, View())
    {
      if Field(DatagramVersion) > 4 {
        :- ReadField(StrippedBytes);
        LogField(StrippedBytes);
      }
      sig := Fine;
    }

    method TakeHeaderBytes() returns (sig: Signal)
      requires Valid()
      modifies this
      ensures Valid() && lane == old(lane)
      ensures ReadHeaderBytes(old(View())) == Out(sig, View())
    {
      hide Words, Bytes, Get, Join, Num;
      var headerLen := Field(HeaderLen);
      var start := datap;
      :- SkipBytes(headerLen);
      str := str[SampledHeader := rawSample[start..datap]];
      Log(HeaderBytes(rawSample[start..datap][..headerLen]));
      sig := Fine;
    }

    method DispatchHeader() returns (sig: Signal)
      requires Valid()
      modifies this
      ensures Valid() && lane == old(lane)
      ensures DecodeHeader(old(View())) == Out(sig, View())
    {
      var protocol := Field(HeaderProtocol);
      if protocol == 1 {
        var vlan := TaggedVlan(if SampledHeader in str then str[SampledHeader] else [], Field(HeaderLen));
        if vlan >= 0 {
          num := num[InVlan := vlan];
          Log(DecodedVlan(vlan));
        }
      } else if protocol < 2 || 17 < protocol {
        return Exit(-12);
      }
      sig := Fine;
    }

    method ReadFlowSampleHeader() returns (sig: Signal)
      requires Valid()
      modifies this
      ensures Valid() && lane == old(lane)
      ensures R.SampledPacket(old(View())) == Out(sig, View())
    {
      Log(Title(HeaderRecord));
      :- ReadField(HeaderProtocol);
      LogField(HeaderProtocol);
      :- ReadField(SampledPacketSize);
      LogField(SampledPacketSize);
      :- ReadStripped();
      :- ReadField(HeaderLen);
      LogField(HeaderLen);
      :- TakeHeaderBytes();
      sig := DispatchHeader();
    }

    // The records that are only printed.

    method LogNext32() returns (sig: Signal)
      requires Valid()
      modifies this
      ensures Valid() && lane == old(lane)
      ensures Next32(old(View())) == Out(sig, View())
    {
      var v :- GetData32();
      Log(Flat32(v));
      sig := Fine;
    }

    method LogNextStatus() returns (sig: Signal)
      requires Valid()
      modifies this
      ensures Valid() && lane == old(lane)
      ensures NextStatus(old(View())) == Out(sig, View())
    {
      var v :- GetData32();
      if v >= STATUS_NAMES {
        return Outside(BadIndex);
      }
      Log(Flat32(v));
      sig := Fine;
    }

    method LogNext64() returns (sig: Signal)
      requires Valid()
      modifies this
      ensures Valid() && lane == old(lane)
      ensures Next64(old(View())) == Out(sig, View())
    {
      var hi :- GetData32();
      var lo :- GetData32();
      Log(Flat64(hi, lo));
      sig := Fine;
    }

    method LogNextString(room: BufLen) returns (sig: Signal)
      requires Valid()
      modifies this
      ensures Valid() && lane == old(lane)
      ensures NextString(room, old(View())) == Out(sig, View())
    {
      hide Words, Bytes, Get, Store, Join, CString;
      var len :- GetData32();
      var start := datap;
      :- SkipBytes(len);
      if len > 0 {
        Log(FlatBytes(CString(rawSample[start..datap][..Kept(len, room)])));
      }
      sig := Fine;
    }

    method LogNextBytes(n: u32) returns (sig: Signal)
      requires Valid()
      modifies this
      ensures Valid() && lane == old(lane)
      ensures NextBytes(n, old(View())) == Out(sig, View())
    {
      hide Words, Bytes, Get, Store, Join;
      var start := datap;
      :- SkipBytes(n);
      Log(FlatBytes(rawSample[start..datap][..n]));
      sig := Fine;
    }

    /** The IPv4 structure (32 bytes) and the IPv6 structure (56 bytes). */
    method ReadFlowSampleIp(size: StructLen) returns (sig: Signal)
      requires Valid()
      modifies this
      ensures Valid() && lane == old(lane)
      ensures ReadIpStruct(size, old(View())) == Out(sig, View())
    {
      hide Words, Bytes, Join;
      num := num[HeaderLen := size];
      var start := datap;
      ghost var before := rest;
      :- SkipBytes(size);
      var nfKey := rawSample[start..datap];
      FirstWord(before[..Quads(size)]);
      num := num[SampledPacketSize := Join(nfKey[0], nfKey[1], nfKey[2], nfKey[3])];
      str := str[SampledHeader := nfKey];
      LogField(SampledPacketSize);
      Log(FlatBytes(nfKey[..size]));
      sig := Fine;
    }

    method ReadPrintedPart(p: R.Part) returns (sig: Signal)
      requires Valid()
      modifies this
      ensures Valid() && lane == old(lane)
      ensures R.ReadPart(p, old(View())) == Out(sig, View())
    {
      match p {
        case W => sig := LogNext32();
        case D => sig := LogNext64();
        case Status => sig := LogNextStatus();
        case S(room) => sig := LogNextString(room);
        case B(n) => sig := LogNextBytes(n);
        case IpStruct(size) => sig := ReadFlowSampleIp(size);
        case Stack(name) => sig := MplsLabelStack(name);
        case Packet => sig := ReadFlowSampleHeader();
        case Flagged(flag) => SetFlag(flag); sig := Fine;
      }
    }

    method ReadPrinted(parts: seq<R.Part>) returns (sig: Signal)
      requires Valid()
      modifies this
      ensures Valid() && lane == old(lane)
      ensures R.ReadParts(parts, old(View())) == Out(sig, View())
    {
      var i := 0;
      while i < |parts|
        invariant 0 <= i <= |parts| && Valid() && lane == old(lane)
        invariant R.ReadParts(parts[i..], View()) == R.ReadParts(parts, old(View()))
      {
        assert parts[i..][1..] == parts[i + 1..];
        :- ReadPrintedPart(parts[i]);
        i := i + 1;
      }
      sig := Fine;
    }

    method ReadRecord(tag: u32) returns (sig: Signal)
      requires Valid()
      modifies this
      ensures Valid() && lane == old(lane)
      ensures R.ReadRecord(tag, old(View())) == Out(sig, View())
    {
      match tag {
        case 1 => sig := ReadFlowSampleHeader();
        case 1001 => sig := ReadExtendedSwitch();
        case 1002 => sig := ReadExtendedRouter();
        case 1003 => sig := ReadExtendedGateway();
        case 1004 => sig := ReadExtendedUser();
        case 1005 => sig := ReadExtendedUrl();
        case 1006 => sig := ReadExtendedMpls();
        case 1007 => sig := ReadExtendedNat();
        case _ => sig := ReadPrinted(R.FlatParts(tag));
      }
    }

    // Flow samples.

    /** The bytes read since `start`, rounded up to words, against a stated length. */
    method LengthCheck(start: nat, len: u32) returns (sig: Signal)
      requires Valid() && start <= datap && start % 4 == lane
      ensures F.LengthCheck((|rawSample| - start) / 4, len, View()) == Out(sig, View())
    {
      var actualLen := (datap - start + 3) / 4 * 4 % 0x1_0000_0000;
      // the length is passed as an int
      var signed := if len < 0x8000_0000 then len as int else len - 0x1_0000_0000;
      var adjustedLen := (signed + 3) / 4 * 4 % 0x1_0000_0000;
      SignedLength(len);
      RoundedLengths(datap - start, len);
      WordsMoved(|rawSample|, start, datap);
      if actualLen != adjustedLen {
        return Abort(LENGTH_ERROR);
      }
      sig := Fine;
    }

    method SkipTLVRecord(inSample: bool, tag: u32, len: u32) returns (sig: Signal)
      requires Valid()
      modifies this
      ensures Valid() && lane == old(lane)
      ensures F.SkipRecord(inSample, tag, len, old(View())) == Out(sig, View())
    {
      Log(Skipped(inSample, tag, len));
      sig := SkipBytes(len);
    }

    method ReadElementBody(tag: u32, length: u32) returns (sig: Signal)
      requires Valid()
      modifies this
      ensures Valid() && lane == old(lane)
      ensures F.ReadElementBody(tag, length, old(View())) == Out(sig, View())
    {
      if R.Known(tag) {
        sig := ReadRecord(tag);
      } else {
        sig := SkipTLVRecord(false, tag, length);
      }
    }

    method ReadFlowElement() returns (sig: Signal)
      requires Valid()
      modifies this
      ensures Valid() && lane == old(lane)
      ensures F.ReadElement(old(View())) == Out(sig, View())
    {
      hide F.ReadElementBody, F.LengthCheck, Words, Line, Quads;
      var tag :- GetData32();
      Log(BlockTag(tag));
      var length :- GetData32();
      var start := datap;
      assert |rest| == (|rawSample| - start) / 4;
      :- ReadElementBody(tag, length);
      Forward(|rawSample|, start, datap);
      :- LengthCheck(start, length);
      work := work + 1;
      sig := Fine;
    }

    method ReadFlowElements(numElements: u32) returns (sig: Signal)
      requires Valid()
      modifies this
      ensures Valid() && lane == old(lane)
      ensures F.ReadElements(numElements, old(View())) == Out(sig, View())
    {
      hide F.ReadElement;
      var el: nat := 0;
      while el < numElements
        invariant el <= numElements && Valid() && lane == old(lane)
        invariant F.ReadElements(numElements - el, View()) == F.ReadElements(numElements, old(View()))
      {
        :- ReadFlowElement();
        el := el + 1;
      }
      sig := Fine;
    }

    method ReadSource(expanded: bool) returns (sig: Signal)
      requires Valid()
      modifies this
      ensures Valid() && lane == old(lane)
      ensures F.ReadSourceOf(expanded, old(View())) == Out(sig, View())
    {
      if expanded {
        :- ReadField(DsClass);
        :- ReadField(DsIndex);
      } else {
        var samplerId :- GetData32();
        num := num[DsClass := samplerId / 0x100_0000][DsIndex := samplerId % 0x100_0000];
      }
      sig := Fine;
    }

    method ReadRates() returns (sig: Signal)
      requires Valid()
      modifies this
      ensures Valid() && lane == old(lane)
      ensures F.ReadRates(old(View())) == Out(sig, View())
    {
      sig := Fine;
      :- ReadField(MeanSkipCount);
      :- ReadField(SamplePool);
      sig := ReadField(DropEvents);
    }

    method ReadPorts(expanded: bool) returns (sig: Signal)
      requires Valid()
      modifies this
      ensures Valid() && lane == old(lane)
      ensures F.ReadPortsOf(expanded, old(View())) == Out(sig, View())
    {
      if expanded {
        :- ReadField(InputPortFormat);
        :- ReadField(InputPort);
        :- ReadField(OutputPortFormat);
        :- ReadField(OutputPort);
      } else {
        var inp :- GetData32();
        var outp :- GetData32();
        num := num[InputPortFormat := inp / WRAPS][OutputPortFormat := outp / WRAPS];
        num := num[InputPort := inp % WRAPS][OutputPort := outp % WRAPS];
      }
      sig := Fine;
    }

    ghost method LogPort(input: bool)
      requires Valid()
      modifies this`log
      ensures Valid() && View() == F.ShowPort(input, old(View()))
    {
      var format := Field(if input then InputPortFormat else OutputPortFormat);
      if format <= 3 {
        Log(Port(input, format, Field(if input then InputPort else OutputPort)));
      }
    }

    method ReadFlowTop(expanded: bool) returns (sig: Signal)
      requires Valid()
      modifies this
      ensures Valid() && lane == old(lane)
      ensures F.ReadFlowTop(expanded, old(View())) == Out(sig, View())
    {
      sig := Fine;
      :- ReadField(SamplesGenerated);
      LogField(SamplesGenerated);
      :- ReadSource(expanded);
      Log(SourceId(Field(DsClass), Field(DsIndex)));
    }

    method ReadFlowHead(expanded: bool) returns (sig: Signal)
      requires Valid()
      modifies this
      ensures Valid() && lane == old(lane)
      ensures F.ReadFlowHead(expanded, old(View())) == Out(sig, View())
    {
      sig := Fine;
      :- ReadFlowTop(expanded);
      :- ReadRates();
      LogField(MeanSkipCount);
      LogField(SamplePool);
      LogField(DropEvents);
      :- ReadPorts(expanded);
      LogPort(true);
      LogPort(false);
    }

    method ReadFlowSample(expanded: bool) returns (sig: Signal)
      requires Valid()
      modifies this
      ensures Valid() && lane == old(lane)
      ensures F.ReadFlowSample(expanded, old(View())) == Out(sig, View())
    {
      hide F.ReadFlowHead, F.ReadElements, F.LengthCheck, Words, Line;
      Log(Title(FlowSampleLine));
      var sampleLength :- GetData32();
      var sampleStart := datap;
      assert |rest| == (|rawSample| - sampleStart) / 4;
      :- ReadFlowHead(expanded);
      var numElements :- GetData32();
      :- ReadFlowElements(numElements);
      Forward(|rawSample|, sampleStart, datap);
      sig := LengthCheck(sampleStart, sampleLength);
    }

    // Versions 2 and 4.

    method ReadExtended() returns (sig: Signal)
      requires Valid()
      modifies this
      ensures Valid() && lane == old(lane)
      ensures F.ReadExtended(old(View())) == Out(sig, View())
    {
      hide R.Switch, R.Router, R.GatewayV2, R.Gateway, R.User, R.UrlOf;
      var tag :- GetData32();
      match tag {
        case 1 => sig := ReadExtendedSwitch();
        case 2 => sig := ReadExtendedRouter();
        case 3 =>
          if Field(DatagramVersion) == 2 {
            sig := ReadExtendedGatewayV2();
          } else {
            sig := ReadExtendedGateway();
          }
        case 4 => sig := ReadExtendedUser();
        case 5 => sig := ReadExtendedUrl();
        case _ => sig := Abort(DECODE_ERROR);
      }
      if sig.Fine? {
        work := work + 1;
      }
    }

    method ReadExtendeds(numExtended: u32) returns (sig: Signal)
      requires Valid()
      modifies this
      ensures Valid() && lane == old(lane)
      ensures F.ReadExtendeds(numExtended, old(View())) == Out(sig, View())
    {
      hide F.ReadExtended;
      var x: nat := 0;
      while x < numExtended
        invariant x <= numExtended && Valid() && lane == old(lane)
        invariant F.ReadExtendeds(numExtended - x, View()) == F.ReadExtendeds(numExtended, old(View()))
      {
        :- ReadExtended();
        x := x + 1;
      }
      sig := Fine;
    }

    method ReadPacketData() returns (sig: Signal)
      requires Valid()
      modifies this
      ensures Valid() && lane == old(lane)
      ensures F.ReadPacketData(old(View())) == Out(sig, View())
    {
      sig := Fine;
      :- ReadField(PacketDataTag);
      match Field(PacketDataTag) {
        case 1 => sig := ReadFlowSampleHeader();
        case 2 => sig := ReadFlowSampleIp(32);
        case 3 => sig := ReadFlowSampleIp(56);
        case _ => sig := Abort(DECODE_ERROR);
      }
    }

    method ReadFlowHeadV2V4() returns (sig: Signal)
      requires Valid()
      modifies this
      ensures Valid() && lane == old(lane)
      ensures F.ReadFlowHeadV24(old(View())) == Out(sig, View())
    {
      sig := Fine;
      :- ReadFlowTop(false);
      :- ReadRates();
      :- ReadField(InputPort);
      :- ReadField(OutputPort);
      LogField(MeanSkipCount);
      LogField(SamplePool);
      LogField(DropEvents);
      LogField(InputPort);
      LogField(OutputPort);
    }

    method ReadFlowSampleV2V4() returns (sig: Signal)
      requires Valid()
      modifies this
      ensures Valid() && lane == old(lane)
      ensures F.ReadFlowSampleV24(old(View())) == Out(sig, View())
    {
      hide F.ReadFlowHeadV24, F.ReadPacketData, F.ReadExtendeds, Read, Line, Words;
      Log(Title(FlowSampleLine));
      :- ReadFlowHeadV2V4();
      :- ReadPacketData();
      ClearFlags();
      :- ReadField(NumExtended);
      sig := ReadExtendeds(Field(NumExtended));
    }

    method ClearFlags()
      requires Valid()
      modifies this`flags
      ensures Valid() && View() == F.ClearFlags(old(View()))
    {
      flags := {};
    }

    // Datagrams.

    method ReadSubId() returns (sig: Signal)
      requires Valid()
      modifies this
      ensures Valid() && lane == old(lane)
      ensures F.ReadSubId(old(View())) == Out(sig, View())
    {
      if Field(DatagramVersion) >= 5 {
        :- ReadField(AgentSubId);
        LogField(AgentSubId);
      }
      sig := Fine;
    }

    method ReadDatagramHead() returns (sig: Signal)
      requires Valid()
      modifies this
      ensures Valid() && lane == old(lane)
      ensures F.ReadDatagramHead(old(View())) == Out(sig, View())
    {
      sig := Fine;
      :- ReadField(DatagramVersion);
      LogField(DatagramVersion);
      var version := Field(DatagramVersion);
      if version != 2 && version != 4 && version != 5 {
        return Abort(DECODE_ERROR);
      }
      :- GetAddress(Agent);
      :- ReadSubId();
      :- ReadField(SequenceNo);
      sig := ReadField(SysUpTime);
    }

    /** Everything in front of the samples, and their number. */
    method ReadHead() returns (sig: Signal, samplesInPacket: u32)
      requires Valid()
      modifies this
      ensures Valid() && lane == old(lane)
      ensures F.Samples0(old(View())) == Out(sig, View())
      ensures sig.Fine? ==> samplesInPacket == F.SampleCount(old(View()))
    {
      hide F.ReadDatagramHead, Words;
      samplesInPacket := 0;
      :- ReadDatagramHead();
      samplesInPacket :- GetData32();
      LogAddress(Agent);
      LogField(SequenceNo);
      LogField(SysUpTime);
      Log(SamplesInPacket(samplesInPacket));
      sig := Fine;
    }

    // Samples.

    /** The outcome of a function on states with the cursor as an offset; where the cursor
        is after a failure is left open, and nothing looks at it any more. */
    ghost predicate Leaves(sig: Signal, m: Move)
      reads this
    {
      var c := Place();
      && sig == m.sig && c.f == m.c.f && c.path == m.c.path && c.log == m.c.log && c.p.work == m.c.p.work
      && (sig.Fine? ==> c == m.c)
    }

    method ReadType() returns (sig: Signal)
      requires Valid()
      modifies this
      ensures Valid() && lane == old(lane)
      ensures Leaves(sig, D.ReadType(rawSample, old(Place())))
      ensures var o := Read(SampleType, old(View()));
              sig == o.sig && View() == if sig.Fine? then Line(SampleTag(Num(o.st.f, SampleType)), o.st) else o.st
      ensures sig.Fine? ==> old(rest) != [] && num == old(num)[SampleType := old(rest)[0]]
      ensures !sig.Fine? ==> sig == Abort(EOS) && old(rest) == [] && Place() == old(Place())
    {
      hide Words, PerEntry.Word32, Join, D.ReadType;
      D.TypeAt(rawSample, Place());
      if datap + 4 <= |rawSample| {
        D.FirstWordAt(rawSample, datap);
      }
      :- ReadField(SampleType);
      Log(SampleTag(Field(SampleType)));
      sig := Fine;
    }

    /** A sample of any kind but counters, by its type. */
    method ReadOtherBody() returns (sig: Signal)
      requires Valid()
      requires !(Field(SampleType) == 2 || (Field(SampleType) == 4 && Field(DatagramVersion) >= 5))
      modifies this
      ensures Valid() && lane == old(lane)
      ensures F.ReadSampleBody(old(View())) == Out(sig, View())
    {
      var sampleType := Field(SampleType);
      if Field(DatagramVersion) >= 5 {
        match sampleType {
          case 1 => sig := ReadFlowSample(false);
          case 3 => sig := ReadFlowSample(true);
          case _ =>
            var len :- GetData32();
            sig := SkipTLVRecord(true, sampleType, len);
        }
      } else {
        match sampleType {
          case 1 => sig := ReadFlowSampleV2V4();
          case _ => sig := Abort(DECODE_ERROR);
        }
      }
    }

    /** Takes over what the readers of counters have moved and stored. */
    method TakeBack(counters: CounterSample)
      requires counters.rawSample == rawSample && counters.path == path
      requires counters.View().f == Fields(counters.num, addr, str, list, flags)
      modifies this
      ensures Steady() && Place() == counters.View()
    {
      hide Words, D.WordsFrom;
      datap, num, log, work := counters.datap, counters.num, counters.log, counters.work;
      lane, rest := datap % 4, D.WordsFrom(rawSample, datap);
    }

    /** A counter sample, read by the object that holds what those readers work on. */
    method ReadCounterBody() returns (sig: Signal)
      requires Valid()
      modifies this
      ensures Steady()
      ensures Leaves(sig, D.ReadCounterBody(rawSample, old(Place())))
    {
      hide ReadCountersSample, ReadCountersSampleV24, Words, D.WordsFrom, Num, EndsOf, Onward;
      var f := Fields(num, addr, str, list, flags);
      var counters := new CounterSample(rawSample, datap, f, path, log, work);
      if Field(DatagramVersion) < 5 {
        sig := counters.ReadCountersSampleV2V4();
      } else {
        sig := counters.ReadCountersSample(Field(SampleType) == 4);
      }
      TakeBack(counters);
    }

    /** A sample of any kind but counters behind its type; x is how it starts. */
    method ReadBehindType(ghost x: St) returns (sig: Signal)
      requires Valid()
      requires !D.CountersNext(x) && x.rest != []
      requires Field(SampleType) == x.rest[0] && Field(DatagramVersion) == R.Version(x)
      requires var o := Read(SampleType, x);
               o.sig.Fine? && View() == Line(SampleTag(Num(o.st.f, SampleType)), o.st)
      modifies this
      ensures Valid() && lane == old(lane)
      ensures F.ReadSample(x) == Out(sig, View())
    {
      hide F.ReadSampleBody, Words, Read;
      :- ReadOtherBody();
      Log(EndSample);
      work := work + 1;
      sig := Fine;
    }

    /** The same; c is where it starts. */
    method ReadOther(ghost c: Cut) returns (sig: Signal)
      requires Valid() && c.p.at <= |rawSample| && c.p.at % 4 == lane
      requires var x := D.InWords(rawSample, c);
               && !D.CountersNext(x) && x.rest != []
               && Field(SampleType) == x.rest[0] && Field(DatagramVersion) == R.Version(x)
               && var o := Read(SampleType, x);
               o.sig.Fine? && View() == Line(SampleTag(Num(o.st.f, SampleType)), o.st)
      modifies this
      ensures Steady()
      ensures Leaves(sig, D.ReadSample(rawSample, c))
    {
      hide F.ReadSample, D.ReadSample, D.InWords, D.InBytes, D.CountersNext, Words, Read, Num;
      D.FlowIs(rawSample, c);
      sig := ReadBehindType(D.InWords(rawSample, c));
      SameLane(rawSample, c, datap, View());
    }

    /** A counter sample behind its type. */
    method ReadCounters(ghost c: Cut) returns (sig: Signal)
      requires Valid() && D.CountersNext(D.InWords(rawSample, c))
      requires Leaves(Fine, D.ReadType(rawSample, c))
      modifies this
      ensures Steady()
      ensures Leaves(sig, D.ReadSample(rawSample, c))
    {
      hide D.ReadSample, D.ReadCounterBody, D.ReadType, D.InWords, D.CountersNext, Words;
      D.CounterIs(rawSample, c);
      :- ReadCounterBody();
      log, work := log + [EndSample], work + 1;
      sig := Fine;
    }

    method ReadSample() returns (sig: Signal)
      requires Steady()
      modifies this
      ensures Steady()
      ensures Leaves(sig, D.ReadSample(rawSample, old(Place())))
    {
      hide F.ReadSample, D.ReadSample, D.ReadType, Words, Read;
      ghost var c := Place();
      NoWords(rawSample, c);
      if datap >= |rawSample| {
        return Abort(EOS);
      }
      :- ReadType();
      var sampleType := Field(SampleType);
      if sampleType == 2 || (sampleType == 4 && Field(DatagramVersion) >= 5) {
        sig := ReadCounters(c);
      } else {
        sig := ReadOther(c);
      }
    }

    method ReadSamples(samplesInPacket: u32) returns (sig: Signal)
      requires Steady()
      modifies this
      ensures Steady()
      ensures Leaves(sig, D.ReadSamples(samplesInPacket, rawSample, old(Place())))
    {
      hide D.ReadSample, Words;
      var samp: nat := 0;
      while samp < samplesInPacket
        invariant samp <= samplesInPacket && Steady()
        invariant D.ReadSamples(samplesInPacket - samp, rawSample, Place())
               == D.ReadSamples(samplesInPacket, rawSample, old(Place()))
      {
        :- ReadSample();
        samp := samp + 1;
      }
      sig := Fine;
    }

    method ReadSFlowDatagram() returns (sig: Signal)
      requires Valid() && datap == 0 && View() == F.Start(Words(rawSample))
      modifies this
      ensures Steady()
      ensures Leaves(sig, D.Decode(rawSample))
    {
      hide F.Samples0, F.SampleCount, D.ReadSamples, Words;
      ghost var x := View();
      var samplesInPacket;
      sig, samplesInPacket := ReadHead();
      WordsMoved(|rawSample|, 0, datap);
      assert Place() == D.InBytes(0, x, View());
      if sig.Fine? {
        sig := ReadSamples(samplesInPacket);
      }
    }
  }

  /** On one lane the words taken tell how far the cursor has moved. */
  lemma SameLane(raw: Buffer, c: Cut, datap: nat, y: St)
    requires c.p.at <= |raw| && datap <= |raw| && c.p.at % 4 == datap % 4
    requires Advances(D.InWords(raw, c), y) && |y.rest| == (|raw| - datap) / 4
    ensures D.InBytes(c.p.at, D.InWords(raw, c), y) == Cut(Pos(datap, y.work), y.f, y.path, y.log)
  {
    hide Words;
    Forward(|raw|, c.p.at, datap);
    LaneSteps(|raw|, c.p.at, datap);
  }

  lemma LaneSteps(total: nat, start: nat, datap: nat)
    requires start <= datap <= total && start % 4 == datap % 4
    ensures 4 * ((total - start) / 4 - (total - datap) / 4) == datap - start
  {
    var k := (datap - start) / 4;
    assert datap == start + 4 * k;
    assert (total - start) / 4 == (total - datap) / 4 + k;
  }

  lemma NoWords(raw: seq<byte>, c: Cut)
    ensures D.InWords(raw, c).rest == [] ==> D.ReadSample(raw, c) == Move(Abort(EOS), c)
  {
  }

  /** The frame that catches aborts: the cursor is set to the start of the
      buffer, and whatever the decode ends with is returned. */
  method ReceiveSFlowDatagram(raw: Buffer) returns (sig: Signal, sample: SFSample)
    ensures fresh(sample) && sample.Steady() && sample.rawSample == raw
    ensures sample.Leaves(sig, D.Decode(raw))
    ensures 4 * sample.work <= |raw|
  {
    hide D.ReadSamples, Words;
    sample := new SFSample(raw);
    sig := sample.ReadSFlowDatagram();
  }
}
