/** Flow samples and datagrams: the loops that the counts on the wire drive. */
module FlowDecode {
  import opened Xdr
  import opened SampleState
  import opened Reader
  import opened Records

  /** The bytes moved since `start` words were left, rounded up to words, must be
      those of `len` bytes rounded up, in 32-bit arithmetic. */
  function LengthCheck(start: nat, len: u32, x: St): (o: Out)
    ensures o.st == x
  {
    if start - |x.rest| == Quads(len) % WRAPS then Out(Fine, x) else Out(Abort(LENGTH_ERROR), x)
  }

  function SkipRecord(inSample: bool, tag: u32, len: u32, x: St): (o: Out)
    ensures Advances(x, o.st)
  {
    var (_, y) :- Get(Quads(len), Line(Skipped(inSample, tag, len), x));
    Out(Fine, y)
  }

  function ReadElementBody(tag: u32, len: u32, x: St): (o: Out)
    ensures Advances(x, o.st)
  {
    if Known(tag) then ReadRecord(tag, x) else SkipRecord(false, tag, len, x)
  }

  /** One record of a flow sample: tag, length, body, and the check of its length. */
  function ReadElement(x: St): (o: Out)
    ensures Advances(x, o.st)
  {
    var (tag, x) :- Get(1, x);
    var (len, x) :- Get(1, Line(BlockTag(tag[0]), x));
    var y :- ReadElementBody(tag[0], len[0], x);
    var z :- LengthCheck(|x.rest|, len[0], y);
    Out(Fine, Count(z))
  }

  function ReadElements(n: nat, x: St): (o: Out)
    ensures Advances(x, o.st)
  {
    if n == 0 then Out(Fine, x) else
      var y :- ReadElement(x);
      ReadElements(n - 1, y)
  }

  /** The source id of a compact sample shares one word. */
  function ReadSource(x: St): (o: Out)
    ensures Advances(x, o.st)
  {
    var (id, x) :- Get(1, x);
    Out(Fine, Store(DsIndex, id[0] % 0x100_0000, Store(DsClass, id[0] / 0x100_0000, x)))
  }

  function ReadSourceExpanded(x: St): (o: Out)
    ensures Advances(x, o.st)
  {
    var x :- Read(DsClass, x);
    Read(DsIndex, x)
  }

  function ReadSourceOf(expanded: bool, x: St): (o: Out)
    ensures Advances(x, o.st)
  {
    if expanded then ReadSourceExpanded(x) else ReadSource(x)
  }

  function ShowSource(x: St): (y: St)
    ensures |y.rest| == |x.rest| && y.f == x.f && |x.log| <= |y.log|
  {
    Line(SourceId(Num(x.f, DsClass), Num(x.f, DsIndex)), x)
  }

  /** A port of a compact sample shares its word with its format. */
  function ReadPorts(x: St): (o: Out)
    ensures Advances(x, o.st)
  {
    var (inp, x) :- Get(1, x);
    var (outp, x) :- Get(1, x);
    var x := Store(OutputPortFormat, outp[0] / WRAPS, Store(InputPortFormat, inp[0] / WRAPS, x));
    Out(Fine, Store(OutputPort, outp[0] % WRAPS, Store(InputPort, inp[0] % WRAPS, x)))
  }

  function ReadPortsExpanded(x: St): (o: Out)
    ensures Advances(x, o.st)
  {
    var x :- Read(InputPortFormat, x);
    var x :- Read(InputPort, x);
    var x :- Read(OutputPortFormat, x);
    Read(OutputPort, x)
  }

  function ReadPortsOf(expanded: bool, x: St): (o: Out)
    ensures Advances(x, o.st)
  {
    if expanded then ReadPortsExpanded(x) else ReadPorts(x)
  }

  /** A port is printed when its format is one of the four that have a line. */
  function ShowPort(input: bool, x: St): (y: St)
    ensures |y.rest| == |x.rest| && y.f == x.f && |x.log| <= |y.log|
  {
    var format := Num(x.f, if input then InputPortFormat else OutputPortFormat);
    var port := Num(x.f, if input then InputPort else OutputPort);
    if format <= 3 then Line(Port(input, format, port), x) else x
  }

  function ReadRates(x: St): (o: Out)
    ensures Advances(x, o.st)
  {
    var x :- Read(MeanSkipCount, x);
    var x :- Read(SamplePool, x);
    Read(DropEvents, x)
  }

  function ShowRates(x: St): (y: St)
    ensures |y.rest| == |x.rest| && y.f == x.f && |x.log| <= |y.log|
  {
    Show(DropEvents, Show(SamplePool, Show(MeanSkipCount, x)))
  }

  /** The sequence number and the source. */
  function ReadFlowTop(expanded: bool, x: St): (o: Out)
    ensures Advances(x, o.st)
  {
    var x :- Read(SamplesGenerated, x);
    var x :- ReadSourceOf(expanded, Show(SamplesGenerated, x));
    Out(Fine, ShowSource(x))
  }

  function ReadFlowHead(expanded: bool, x: St): (o: Out)
    ensures Advances(x, o.st)
  {
    var x :- ReadFlowTop(expanded, x);
    var x :- ReadRates(x);
    var x :- ReadPortsOf(expanded, ShowRates(x));
    Out(Fine, ShowPort(false, ShowPort(true, x)))
  }

  function ReadFlowSample(expanded: bool, x: St): (o: Out)
    ensures Advances(x, o.st)
  {
    var (len, x) :- Get(1, Line(Title(FlowSampleLine), x));
    var y :- ReadFlowHead(expanded, x);
    var (n, y) :- Get(1, y);
    var z :- ReadElements(n[0], y);
    LengthCheck(|x.rest|, len[0], z)
  }

  // Versions 2 and 4.

  function ReadExtendedBody(tag: u32, x: St): (o: Out)
    ensures Advances(x, o.st)
  {
    match tag
    case 1 => Switch(x)
    case 2 => Router(x)
    case 3 => if Version(x) == 2 then GatewayV2(x) else Gateway(x)
    case 4 => User(x)
    case 5 => UrlOf(x)
    case _ => Out(Abort(DECODE_ERROR), x)
  }

  function ReadExtended(x: St): (o: Out)
    ensures Advances(x, o.st)
  {
    var (tag, x) :- Get(1, x);
    var y :- ReadExtendedBody(tag[0], x);
    Out(Fine, Count(y))
  }

  function ReadExtendeds(n: nat, x: St): (o: Out)
    ensures Advances(x, o.st)
  {
    if n == 0 then Out(Fine, x) else
      var y :- ReadExtended(x);
      ReadExtendeds(n - 1, y)
  }

  function ReadPacketData(x: St): (o: Out)
    ensures Advances(x, o.st)
  {
    var x :- Read(PacketDataTag, x);
    match Num(x.f, PacketDataTag)
    case 1 => SampledPacket(x)
    case 2 => ReadIpStruct(32, x)
    case 3 => ReadIpStruct(56, x)
    case _ => Out(Abort(DECODE_ERROR), x)
  }

  /** A port of an old sample is one word without a format. */
  function ReadPlainPorts(x: St): (o: Out)
    ensures Advances(x, o.st)
  {
    var x :- Read(InputPort, x);
    Read(OutputPort, x)
  }

  function ReadFlowHeadV24(x: St): (o: Out)
    ensures Advances(x, o.st)
  {
    var x :- ReadFlowTop(false, x);
    var x :- ReadRates(x);
    var x :- ReadPlainPorts(x);
    Out(Fine, Show(OutputPort, Show(InputPort, ShowRates(x))))
  }

  function ClearFlags(x: St): (y: St)
    ensures |y.rest| == |x.rest| && y.log == x.log
  {
    x.(f := x.f.(flags := {}))
  }

  function ReadFlowSampleV24(x: St): (o: Out)
    ensures Advances(x, o.st)
  {
    var x :- ReadFlowHeadV24(Line(Title(FlowSampleLine), x));
    var x :- ReadPacketData(x);
    var x :- Read(NumExtended, ClearFlags(x));
    ReadExtendeds(Num(x.f, NumExtended), x)
  }

  // Datagrams.

  function ReadSampleBody(x: St): (o: Out)
    ensures Advances(x, o.st)
  {
    var t := Num(x.f, SampleType);
    if Version(x) >= 5 then
      match t
      case 1 => ReadFlowSample(false, x)
      case 3 => ReadFlowSample(true, x)
      case 2 | 4 => Out(Outside(CounterSample), x)
      case _ =>
        var (len, y) :- Get(1, x);
        SkipRecord(true, t, len[0], y)
    else
      match t
      case 1 => ReadFlowSampleV24(x)
      case 2 => Out(Outside(CounterSample), x)
      case _ => Out(Abort(DECODE_ERROR), x)
  }

  function ReadSample(x: St): (o: Out)
    ensures Advances(x, o.st)
  {
    var x :- Read(SampleType, x);
    var y :- ReadSampleBody(Line(SampleTag(Num(x.f, SampleType)), x));
    Out(Fine, Count(Line(EndSample, y)))
  }

  function ReadSamples(n: nat, x: St): (o: Out)
    ensures Advances(x, o.st)
  {
    if n == 0 then Out(Fine, x) else
      var y :- ReadSample(x);
      ReadSamples(n - 1, y)
  }

  function ReadSubId(x: St): (o: Out)
    ensures Advances(x, o.st)
  {
    if Version(x) < 5 then Out(Fine, x) else
      var x :- Read(AgentSubId, x);
      Out(Fine, Show(AgentSubId, x))
  }

  /** Everything in front of the sample count. */
  function ReadDatagramHead(x: St): (o: Out)
    ensures Advances(x, o.st)
  {
    var x :- Read(DatagramVersion, x);
    var x := Show(DatagramVersion, x);
    if Version(x) != 2 && Version(x) != 4 && Version(x) != 5 then Out(Abort(DECODE_ERROR), x) else
      var x :- ReadAddr(Agent, x);
      var x :- ReadSubId(x);
      var x :- Read(SequenceNo, x);
      Read(SysUpTime, x)
  }

  function ReadDatagram(x: St): (o: Out)
    ensures Advances(x, o.st)
  {
    var x :- ReadDatagramHead(x);
    var (n, x) :- Get(1, x);
    var x := Show(SysUpTime, Show(SequenceNo, ShowAddr(Agent, x)));
    ReadSamples(n[0], Line(SamplesInPacket(n[0]), x))
  }

  /** A start state. */
  function Start(words: seq<u32>): St {
    St(words, CLEARED, [], [], 0)
  }

  /** The state of a datagram in front of its samples, and their count. */
  function Samples0(x: St): (o: Out)
    ensures Advances(x, o.st)
  {
    var x :- ReadDatagramHead(x);
    var (n, x) :- Get(1, x);
    Out(Fine, Line(SamplesInPacket(n[0]), Show(SysUpTime, Show(SequenceNo, ShowAddr(Agent, x)))))
  }

  function SampleCount(x: St): u32 {
    var o := ReadDatagramHead(x);
    if o.sig.Fine? && |o.st.rest| > 0 then o.st.rest[0] else 0
  }

  /** The decode of a whole datagram into a cleared sample structure. The counts on
      the wire can ask for any number of iterations; no more are ever completed
      than there are words. */
  function Decode(words: seq<u32>): (o: Out)
    ensures o.st.work + |o.st.rest| <= |words|
  {
    ReadDatagram(St(words, CLEARED, [], [], 0))
  }
}
