/** The state of one sFlow decode: what is left to read, the fields of the
    sample structure, and the lines printed so far. */
module SampleState {
  import opened Xdr

  /** `kind` is the address type word; type 1 has four bytes, any other sixteen. */
  datatype Address = Address(kind: u32, bytes: seq<byte>)

  const IP_V4: u32 := 1
  const IP_V6: u32 := 2
  const AS_SET: u32 := 1
  const AS_SEQUENCE: u32 := 2

  datatype Segment = Segment(kind: u32, ases: seq<u32>)
  type AsPath = seq<Segment>

  /** The bits of extended_data_tag. */
  datatype Flag =
    | HasSwitch | HasRouter | HasGateway | HasUser | HasUrl | HasMpls | HasNat
    | HasMplsTunnel | HasMplsVc | HasMplsFtn | HasMplsLdpFec | HasVlanTunnel

  // The names of the fields of the sample structure that the decode writes.

  datatype NumSlot =
    | DatagramVersion | AgentSubId | SequenceNo | SysUpTime | SampleType
    | SamplesGenerated | DsClass | DsIndex | MeanSkipCount | SamplePool | DropEvents
    | StatsSamplingInterval | CounterBlockVersion
    | InputPortFormat | InputPort | OutputPortFormat | OutputPort
    | PacketDataTag | HeaderProtocol | SampledPacketSize | StrippedBytes | HeaderLen
    | InVlan | InPriority | OutVlan | OutPriority
    | SrcMask | DstMask
    | MyAs | SrcAs | SrcPeerAs | DstPeerAs | DstAs | DstAsPathLen | CommunitiesLen | Localpref
    | SrcUserCharset | SrcUserLen | DstUserCharset | DstUserLen | UrlDirection | UrlLen | HostLen
    | NumExtended

  datatype AddrSlot = Agent | NextHop | BgpNextHop | MplsNextHop | NatSrc | NatDst

  datatype StrSlot = SrcUser | DstUser | Url | Host | SampledHeader

  datatype ListSlot = DstAsPathList | CommunityList

  /** The fields by name. A field that was never stored is zero: the structure
      is cleared before a datagram is decoded into it. */
  datatype Fields = Fields(
    num: map<NumSlot, u32>, addr: map<AddrSlot, Address>, str: map<StrSlot, seq<byte>>,
    list: map<ListSlot, seq<u32>>, flags: set<Flag>)

  const CLEARED := Fields(map[], map[], map[], map[], {})

  function Num(f: Fields, d: NumSlot): u32 {
    if d in f.num then f.num[d] else 0
  }

  function Addr(f: Fields, a: AddrSlot): Address {
    if a in f.addr then f.addr[a] else Address(0, [])
  }

  function Str(f: Fields, s: StrSlot): seq<byte> {
    if s in f.str then f.str[s] else []
  }

  function List(f: Fields, l: ListSlot): seq<u32> {
    if l in f.list then f.list[l] else []
  }

  function SetNum(f: Fields, d: NumSlot, v: u32): Fields {
    f.(num := f.num[d := v])
  }

  function SetAddr(f: Fields, a: AddrSlot, v: Address): Fields {
    f.(addr := f.addr[a := v])
  }

  function SetStr(f: Fields, s: StrSlot, v: seq<byte>): Fields {
    f.(str := f.str[s := v])
  }

  function SetList(f: Fields, l: ListSlot, v: seq<u32>): Fields {
    f.(list := f.list[l := v])
  }

  /** The field that holds the length a string was sent with. */
  function LenSlot(s: StrSlot): NumSlot {
    match s
    case SrcUser => SrcUserLen
    case DstUser => DstUserLen
    case Url => UrlLen
    case Host => HostLen
    case SampledHeader => HeaderLen
  }

  /** What "%s" prints of a buffer: its bytes up to the first zero byte. */
  function CString(buf: seq<byte>): seq<byte> {
    if buf == [] || buf[0] == 0 then [] else [buf[0]] + CString(buf[1..])
  }

  /** So those bytes hold no zero, and are all or are followed by one. */
  lemma {:induction false} CStringEnds(buf: seq<byte>)
    ensures var s := CString(buf);
            && |s| <= |buf| && s == buf[..|s|] && 0 !in s
            && (|s| < |buf| ==> buf[|s|] == 0)
  {
    if buf != [] && buf[0] != 0 {
      CStringEnds(buf[1..]);
      var s := CString(buf[1..]);
      assert buf[..1 + |s|] == [buf[0]] + buf[1..][..|s|];
    }
  }

  // The trace: one event for each line, or part of a line, that is printed.

  datatype RecordKind =
    | FlowSampleLine | HeaderRecord | SwitchRecord | RouterRecord | GatewayRecord | UserRecord | UrlRecord
    | MplsRecord | NatRecord | FlatRecord | CountersSampleLine

  datatype StackName = MplsIn | MplsOut | VlanTunnel

  datatype PathToken = PathStart | Dash | Open | AsNumber(n: u32) | Close | PathEnd

  datatype Event =
    | SampleTag(tag: u32)
    | BlockTag(tag: u32)
    | Title(kind: RecordKind)
    | ShowNum(slot: NumSlot, value: u32)
    | ShowAddress(addrSlot: AddrSlot, address: Address)
    | ShowString(strSlot: StrSlot, text: seq<byte>)
    | SourceId(dsClass: u32, dsIndex: u32)
    | Port(input: bool, format: u32, port: u32)
    | PathPiece(token: PathToken)
    | PathV2(ases: seq<u32>)
    | Communities(values: seq<u32>)
    | Labels(stack: StackName, labels: seq<u32>)
    | HeaderBytes(bytes: seq<byte>)
    | DecodedVlan(vlan: u32)
    | Skipped(inSample: bool, tag: u32, len: u32)
    | SamplesInPacket(count: u32)
    | EndSample
    | Flat32(value32: u32)
    | Flat64(hi: u32, lo: u32)
    | FlatBytes(raw: seq<byte>)

  /** How a reader ends. `Outside` marks the places where the program goes on with
      memory that is not the datagram's, which nothing here speaks of: a count whose
      fourfold wraps around 32 bits, so that far more is looped over than was skipped;
      an index from the wire that leaves its table; a structure or a loop that reaches
      over the end of the buffer unchecked. `CounterSample` is no such end: it hands
      a counter sample over to its own reader. */
  datatype Reason = CountWraps | BadIndex | StrayRead | CounterSample
  datatype Signal = Fine | Abort(code: nat) | Exit(status: int) | Outside(why: Reason)
  {
    predicate IsFailure() { !Fine? }

    function PropagateFailure(): Signal
      requires IsFailure()
    {
      this
    }
  }

  const EOS: nat := 1
  const DECODE_ERROR: nat := 2
  const LENGTH_ERROR: nat := 3

  /** `rest` holds the words from datap to endp, in host order. `path` is the AS
      path that the latest gateway record has delivered so far, and `work` the
      number of completed iterations of the count-driven read loops. */
  datatype St = St(rest: seq<u32>, f: Fields, path: AsPath, log: seq<Event>, work: nat)

  /** The result of a reader: how it ended and the state it left, which later
      readers take over only if it ended fine. */
  datatype Out = Out(sig: Signal, st: St)
  {
    predicate IsFailure() { !sig.Fine? }

    function PropagateFailure(): Out
      requires IsFailure()
    {
      this
    }

    function Extract(): St
      requires !IsFailure()
    {
      st
    }
  }

  /** The result of getting n words: the words and the state after them. */
  datatype Got = Got(words: seq<u32>, next: St) | Short(st: St)
  {
    predicate IsFailure() { Short? }

    function PropagateFailure(): Out
      requires IsFailure()
    {
      Out(Abort(EOS), st)
    }

    function Extract(): (seq<u32>, St)
      requires !IsFailure()
    {
      (words, next)
    }
  }

  /** What every reader keeps: it only goes forward over the input, takes back
      no line, and pays at least one word for each iteration. */
  ghost predicate Advances(a: St, b: St) {
    && |b.rest| <= |a.rest|
    && |a.log| <= |b.log|
    && a.work <= b.work
    && b.work - a.work <= |a.rest| - |b.rest|
  }
}
