# A model of sflowtool's decoders, in Dafny

sflowtool decodes sFlow datagrams (versions 2, 4 and 5) that arrive from the network. It walks over the
buffer with one mutable cursor, overwrites the fields of one sample structure, prints what it finds, and
leaves by a non-local abort when the buffer ends early or a length does not fit. Nested loops are driven by
counts from the wire. This project models that decoder and four smaller machines of the same program, and
proves what they promise.

- `Xdr`, `SampleState`, `Reader`, `Records`, `FlowDecode`: the decoder as functions. A reader takes a state
  (the words left, the fields, the AS path, the trace, the loop iterations so far) and returns how it ended
  (fine, abort, exit, or outside the model) and the state it left.
- `SampleObject`: the same decoder as a class over a byte buffer, with a cursor, fields that are overwritten in place
  and loops with invariants. Each method is proved to do what the reader function of its name does.
- The wire formats as an agent would write them and, apart from all readers, the lines and fields a datagram should
  give: `Encoding` and `Formats` for the flow samples of version 5 (sFlow Version 5, section 5), `OldEncoding` for
  versions 2 and 4 (RFC 3176, section 4), `CounterEncoding` for counter samples, field by field, `FullEncoding` for
  datagrams of all versions with all kinds of samples. `ByteFields`: values as bytes.
- Decoding inverts them: `RoundTrip`, `PrintedTrip` and `DatagramTrip` (version 5 flow samples), `OldTrip` (versions 2
  and 4), `CounterTrip` and `CounterBlocks` (counter samples), `EntryTrip` (per-entry records), and `FullTrip` (everything
  together). `Injective`: different datagrams look different on the wire.
- `Context`: readers do not look around. `Conservation` and `Framing` (records and samples end where their lengths
  say) and `Forward` (unknown records) build on it.
- `CounterRecords`, `CounterSamples`: the readers of counters as functions over bytes. `CounterFraming`: where their
  samples end. `CounterObject`: the same readers as methods of an object. `FullDecode`: the decode of any datagram, flow
  samples by the readers of words and counter samples by their own; `HandOver`: which is which.
- `Gateways`: the AS endpoints, by reader and across versions. `MixedRuns`: whole runs and datagrams of both kinds of
  samples.
- `StatusRecord`: the one flow record with an index from the wire.
- `PathText`, `PathPrinted` and `Decimal`: the printed AS path.
- `PerEntry`: the A10 per-entry counter records and the structures they fill, on their own.
- `InternetChecksum` and `SpoofedPacket`: the checksum, and the send buffer with its pseudo-header.
- `LinkLayer`: the two link-layer decoders, and the IPv6 extension headers. `LinkFrames`: what they find, told from how a
  frame was put together.
- `TextEncoders` and `VlanFilter`: URL encoding, hex dumps, and the VLAN options.

The host is little-endian, as the program's build assumes, and has 64-bit longs. A datagram has at most 65536 bytes, the size of the
receive buffer (src/sflowtool.c:7748). Where memory behind a frame may be looked at before the length is
checked, memory has a byte at every offset.

Ten things the proofs bring out, each with an input that shows it:

- The IP header checksum field is summed with its old value (src/sflowtool.c:1495). The first packet is right; a
  later one is right only if the one before it carried 65535 (`SpoofedPacket.SecondPacketWrong`).
- A per-entry record with 65536 or more bytes of counters is read as its remainder (src/sflowtool.c:4210,
  `PerEntry.RecordFallsBehind`).
- Two neighbouring AS sequences print like one (src/sflowtool.c:2019-2047, `PathText.TwoPathsOneText`).
- A known record that is longer than its length field says reads on into whatever follows, so an unknown record behind
  it is seen, although the decode fails either way (src/sflowtool.c:3123-3252, `Forward.OverrunIsSeen`).
- The counter record of 45 packed bytes (tags 1, 1001 and A10 format 3000) is no whole number of words, but the length
  check rounds up: a counter sample with one of them returns normally three bytes early, and the next sample is read from
  there (src/sflowtool.c:855-865 and 3346-3415, `MixedRuns.LeavesFrame`).
- A standard record of generic interface counters has the tag of that record: a sample that holds one is refused
  (src/sflowtool.c:7209-7216, `CounterFraming.InterfaceRefused`).
- The walk over IPv6 extension headers passes two bytes too few behind each header. Behind one header the protocol is
  right; behind two, the second one is never looked at in its place, and a plain TCP packet gets no protocol
  (src/sflowtool.c:1284-1291, `LinkLayer.SecondHeader`, `LinkLayer.TwoHeadersMissed`).
- Of the traffic class of an IPv6 header the upper half only is stored (src/sflowtool.c:1236, `LinkFrames.Ip6Fields`).
- A VLAN option takes a number modulo 2^32, and a leading zero for the base: 4294967297 means VLAN 1, and 08 means VLANs
  0 and 8 (src/sflowtool.c:7996-8004, `VlanFilter.TooLongForAnId`, `VlanFilter.EightBehindZero`).
- The status of an application record indexes its table of names unchecked (src/sflowtool.c:2741,
  `StatusRecord.StatusUnchecked`).

Run `dafny verify dfyconfig.toml` with a resource limit of 2000000 and no time limit.

## Model

| member | source | states |
|---|---|---|
| `FullTrip.DecodeEncode` | src/sflowtool.c:7518-7606 | Decoding the encoding of any datagram of version 2, 4 or 5, with flow samples, counter samples and samples of unknown types in any order, each at whatever byte it starts, returns right behind the encoding, has printed its values in order and leaves exactly the fields, the AS path and the number of iterations that it carries. If a sampled packet has a header protocol outside 1 to 17 it exits with -12 instead, and only then. |
| `FullTrip.SampleAt` | src/sflowtool.c:7563-7604 | The same for one sample of any kind of any version, anywhere in a buffer. |
| `DatagramTrip.DecodeEncode` | src/sflowtool.c:7518-7606 | The same for the decode by words of version 5 datagrams of flow samples, compact or expanded, with packet header, switch, router, gateway, user, URL, MPLS and NAT records, the records of every other tag that has a reader, and unknown ones. |
| `PrintedTrip.HeaderAt` | src/sflowtool.c:2413-2485 | A packet header record of any values is read to its end and leaves protocol, packet size, stripped bytes, length and bytes with their lines and, for Ethernet, the VLAN that bytes 12 to 15 carry; it exits with -12 if and only if the protocol is outside 1 to 17. |
| `PrintedTrip.HeaderDecoded` | src/sflowtool.c:2437-2470 | The branch on the header protocol alone. |
| `PrintedTrip.PrintedAt` | src/sflowtool.c:3123-3251 | A record of any of the 33 tags that are only printed, with any values that its format allows, is read right to its end and leaves its values, in order, as its lines, and its bit. |
| `PrintedTrip.FormatParts` | src/sflow.h:95-565 | For every tag the parts that are read are the fields of the format, and none for a tag without one. |
| `OldTrip.DecodeEncodeOld` | src/sflowtool.c:7518-7606 | The same for the decode by words of version 2 and 4 datagrams of flow samples: packet data of the three kinds and any list of extended data. |
| `OldTrip.BodyAt` | src/sflowtool.c:2976-3003 | Extended data of each kind (switch, router, gateway as a list or in segments, user without charsets, URL without host) is read to its end and leaves its values, its lines and its path. |
| `OldTrip.DataAt` | src/sflowtool.c:2952-2970 | Packet data of each kind (header without stripped bytes, IPv4, IPv6) is read to its end and leaves its values. |
| `OldTrip.ExtendedRefused` | src/sflowtool.c:2999-3001 | Extended data of any other tag is refused with a decode error. |
| `OldTrip.DataRefused` | src/sflowtool.c:2967-2969 | So is packet data of any other tag. |
| `OldTrip.SampleRefused` | src/sflowtool.c:7591-7602 | So is a sample of versions 2 and 4 of any other type. |
| `OldTrip.VersionRefused` | src/sflowtool.c:7534-7541 | So is a datagram of any other version. |
| `CounterTrip.CounterSampleAt` | src/sflowtool.c:7164-7512 | A counter sample, compact or expanded, with any list of records of all tags and any values, anywhere in a buffer, returns right behind its last record; it leaves its sequence number, its source and the VLAN of its last VLAN record, with the lines of its head and of its tags, and changes nothing else. |
| `CounterTrip.RecordAt` | src/sflowtool.c:7207-7500 | A counter record of any tag, laid out field by field from the definition of its structure, is read right to its end, with as many iterations as it has list entries. |
| `CounterTrip.StructureAt` | src/sflow.h:704-1300 | The same for the plain structures: their 16-bit, 32-bit and 64-bit fields, runs of bytes and strings. |
| `CounterBlocks.OldCountersAt` | src/sflowtool.c:4110-4173 | A counter sample of version 2 or 4 with any of the seven kinds of blocks returns right behind its block and leaves its sequence number, source, interval and block kind, and for the VLAN block the VLAN. |
| `CounterBlocks.TablesRead` | src/sflowtool.c:4207-4279 | A table of n counters of enterprise 40842 is read if and only if it is not empty and those of them that its structure has fields for lie in the buffer. |
| `CounterBlocks.StatisticsRead` | src/sflowtool.c:6988-7036 | The entry statistics are read if and only if there are no more than four protocols and three applications; the next one leaves its table. |
| `CounterBlocks.StatRead` | src/sflowtool.c:6946-6965 | Each is read exactly if its protocol is one of eight, its state one of four and its 80 bytes are there. |
| `CounterBlocks.MapRead` | src/sflowtool.c:5453-5470 | An entry map is read exactly if its port type is at most 8 and its 68 bytes are there. |
| `EntryTrip.EntryLies` | src/sflowtool.c:7329-7421 | A per-entry record of any kind, with IPv4 or IPv6 addresses, anywhere in a buffer, gives back its types, static flag, addresses, mask and age, its port and application type if its kind sends them (0 otherwise), and its counters as far as there are fields for them, and ends right behind it. |
| `EntryTrip.TypesNamed` | src/sflowtool.c:5299-5306 | A header that is all there is read fine exactly if its table type is below 3 and its IP type below 2. |
| `LinkFrames.SampledFrame` | src/sflowtool.c:880-1007 | In every frame without a tag or with one 0x8100 tag, of 34 captured bytes or more, the sample decoder finds IPv4 (0x0800) or IPv6 (0x86DD) behind the type field, at 14 or 18; behind a SNAP header 8 bytes further, behind LLC 06 06 3 bytes further. It stores any other type above 1500, and none for IPX packets, other organisations and other 802.3 frames. |
| `LinkFrames.AddressesFound` | src/sflowtool.c:889-914 | In any frame, whatever its tags, type and body, the addresses are those of the frame, and the VLAN the lower 12 bits of an outermost 0x8100 tag, if there is one. |
| `LinkFrames.Ip6Fields` | src/sflowtool.c:1235-1272 | Of any IPv6 header both addresses, the hop limit and the upper four bits of the traffic class are stored, and the protocol if no extension header follows. |
| `LinkFrames.ShortFrame` | src/sflowtool.c:924-926 | With fewer bytes it finds nothing. |
| `LinkFrames.CapturedFrame` | src/sflowtool.c:7792-7911 | In every frame, behind any number of tags, with 34 bytes or more behind the type field: the payload is 8 bytes behind the IPv4 header or the 40 bytes of an IPv6 header that starts there, 8 bytes further behind SNAP and 3 behind LLC 06 06, if that is inside the frame; -1 for a wrong header, IPX packets, other organisations and other 802.3 frames. |
| `LinkFrames.ShortCapture` | src/sflowtool.c:7823-7826 | With fewer bytes behind the type field there is no payload. |
| `FullDecode.Decode` | src/sflowtool.c:7518-7606 | The decode of any datagram, of flow samples, counter samples and unknown samples in any order, from whatever byte offset each one starts at. On every input it ends: at the end of the datagram, by an abort or an exit, or at one of three steps by which the program leaves the memory of the datagram and its tables (a count whose fourfold wraps around 32 bits, an index without an entry, a structure or loop that reaches over the end); no sample stops it for its kind. No more iterations of count-driven loops are completed than a quarter of the bytes, whatever the 32-bit counts on the wire ask for. |
| `SampleObject.ReceiveSFlowDatagram` | src/sflowtool.c:7613-7648 | On every buffer of at most 65536 bytes the in-place decoder, counter samples included, ends with the outcome of `FullDecode.Decode` and leaves its fields, path, lines and iterations, and its cursor if it returns; four times the completed iterations never exceed the bytes of the buffer. |
| `CounterFraming.CounterSampleEnds` | src/sflowtool.c:7164-7507 | A version 5 counter sample, compact or expanded, that passes its length check ends at its padded length less the shortfall of its 45-byte records: 3, 2, 1 or 0 bytes for 1, 2, 3 or 4 of them, modulo 4. |
| `CounterFraming.EndsAsDeclared` | src/sflowtool.c:855-865 | So it ends where its length field says if and only if the number of its records with tag 1, 1001 or A10 format 3000 is a multiple of four. |
| `MixedRuns.SampleFramed` | src/sflowtool.c:7563-7604 | Every version 5 sample that returns normally ends at its padded length, less what the 45-byte records of a counter sample fall short of whole words; so a flow sample or an unknown sample ends exactly there, and a counter sample if and only if it falls short by nothing. |
| `MixedRuns.RunFramed` | src/sflowtool.c:7563-7604 | A run of version 5 samples that returns is framed by their length fields if and only if each of its counter samples has a multiple of four 45-byte records, and then it ends where a walk over the length fields ends. |
| `MixedRuns.DatagramFramed` | src/sflowtool.c:7518-7606 | The same from the first sample of a version 5 datagram on. |
| `MixedRuns.LeavesFrame` | src/sflowtool.c:7164-7512 | A datagram that leaves the frame: one counter sample of declared length 65 with one record of tag 1 and length 45. It is decoded to its end at byte 101, where the length of its sample puts the end at 104. |
| `CounterFraming.FallsShort` | src/sflowtool.c:3346-3415 | The sample of `MixedRuns.LeavesFrame` behind any bytes: it returns normally after 65 bytes where 68 are declared. |
| `CounterFraming.InterfaceRefused` | src/sflowtool.c:7209-7216 | A compact sample of the standard 88-byte interface counters, for any counters and any interface index below 2^24, aborts with a length error: its record is read as the 45-byte one. |
| `CounterFraming.RecordMoves` | src/sflowtool.c:7207-7500 | Of all counter records that are read fine, the one of 45 bytes moves the cursor by one byte more than whole words, every other one by whole words; none moves it 65536 bytes or more past the end. |
| `MixedRuns.SamplesEnd` | src/sflowtool.c:7563-7604 | After any run of flow samples and counter samples that returns, `dst_peer_as` is the first AS of the first segment and `dst_as` the last AS of the last segment of the most recent gateway record, or 0 where that segment is empty or absent. No counter reader disturbs them. |
| `MixedRuns.DecodeEnds` | src/sflowtool.c:7518-7606 | The same for every datagram, of any version, that is decoded to its end. |
| `MixedRuns.DecodesAgree` | src/sflowtool.c:7518-7606 | Every datagram that the decode by words does not hand over is decoded by bytes to the same outcome and state, so what is proved about words holds of it. |
| `HandOver.HandsOver` | src/sflowtool.c:7572-7602 | The readers of words hand a sample over if and only if its type is that of a counter sample of its version; no flow record of any tag does. |
| `Injective.EncodeInjective` | src/sflow.h:652-724 | A property of the format, as `Encoding` lays it out: two datagrams with the same bytes are the same datagram. The wire form determines every field, every byte of a string and of a skipped record, and every AS path. |
| `StatusRecord.StatusDecides` | src/sflowtool.c:2715-2743 | An application record (tag 2202) looks behind its table of 11 names if and only if its strings and counters are there and its status is 11 or more; otherwise it is read exactly when it is all there. |
| `StatusRecord.StatusUnchecked` | src/sflowtool.c:2741 | A version 5 datagram whose one flow sample holds such a record with empty strings and status 0xFFFFFFFF. |
| `Conservation.FlowSampleConserves` | src/sflowtool.c:3036-3255 | A flow sample that returns normally moved the cursor by 4 plus its padded length; that length is 32 (compact) or 44 (expanded) plus 8 plus the padded length for every record, found by a walk over the length fields that knows no record reader. |
| `Conservation.ElementsEnd` | src/sflowtool.c:3114-3253 | For any number of records and any mix of readers, the record loop ends where the walk over the length fields ends, and what it consumed is the sum over them. |
| `Conservation.ElementEnds` | src/sflowtool.c:3118-3252 | A record that passes its length check ends exactly where its length field says. |
| `Conservation.RecordConsumes` | src/sflowtool.c:3123-3251 | No reader of a known record tag ends fine without having consumed a word. |
| `Framing.HeadFine` | src/sflowtool.c:7534-7558 | The head of a version 5 datagram is read whenever its words are there. |
| `Forward.ForwardCompatible` | src/sflowtool.c:3111-3255 | An unknown record put behind any k records of any flow sample of any version 5 datagram, the place given by counts and length fields alone, with the record count and the sample length adjusted. If what lies in front of it does not run out of words on its own: same outcome, same fields, same AS path; if all of that is read fine, the trace differs by the two lines of the record only; if not, the record is never reached and the trace is the same. |
| `Forward.OverrunFails` | src/sflowtool.c:3111-3255 | The other case: if what lies in front runs out of words on its own, neither datagram is decoded fine. |
| `Forward.OutcomeKept` | src/sflowtool.c:3111-3255 | So for every such place a datagram is decoded fine if and only if it is with the unknown record in it, and then all fields and all other lines are the same. |
| `Forward.OverrunIsSeen` | src/sflowtool.c:3111-3255 | Why the condition is there: a switch record that declares 4 bytes and reads 16. With an unknown record put behind it the same datagram fails with the same length error, but stores another priority. |
| `Forward.FrontKeepsWithin` | src/sflowtool.c:3114-3253 | The condition holds for records of which none that is reached reads past the end its length field gives. |
| `Forward.FineKeepsWithin` | src/sflowtool.c:3114-3253 | Records that are read fine, whatever follows them, satisfy that condition. |
| `Forward.EncodedKeepWithin` | src/sflowtool.c:3114-3253 | So do all records that an agent encodes, of any kind and any values, whatever follows them, also where one of them ends the program. |
| `Forward.InsertedInElements` | src/sflowtool.c:3114-3253 | Insertion into a list of records, behind the k-th one as the length fields count them. |
| `Forward.InsertedInSample` | src/sflowtool.c:3036-3255 | Insertion into one flow sample, whose length check still passes or fails as before. |
| `Forward.ReadUnknown` | src/sflowtool.c:1887-1892 | Reading an unknown record consumes exactly its own words, prints its tag and skip lines and changes no field. |
| `Gateways.PathEnds` | src/sflowtool.c:2010-2049 | Reading a path sets both endpoints from that path, whatever was stored before. |
| `Gateways.GatewayEnds` | src/sflowtool.c:1991-2078 | The version 4 and 5 gateway reader leaves the endpoints of its own path. |
| `Gateways.GatewayV2Ends` | src/sflowtool.c:1940-1984 | The version 2 gateway reader leaves the endpoints of its own path. |
| `Gateways.RecordEnds` | src/sflowtool.c:3123-3251 | Every record reader, of any tag, keeps the endpoints in step with the path and the version as it is. |
| `Gateways.VersionsAgree` | src/sflowtool.c:2986-2992 | For every AS list p with four times its length below 2^32, the version 2 reader on p and the version 4 reader on one AS_SEQUENCE segment holding p give the same `my_as`, `src_as`, `src_peer_as`, `dst_peer_as` and `dst_as`. |
| `Gateways.GatewayV2At` | src/sflowtool.c:1940-1984 | The five AS fields that a version 2 record stores, as values of its words. |
| `Gateways.GatewayV4At` | src/sflowtool.c:1991-2078 | The five AS fields that a version 4 record with one sequence stores, as values of its words. |
| `PathPrinted.PathTaken` | src/sflowtool.c:2010-2049 | A path that is read fine is the one that its words encode, for any words. |
| `PathPrinted.PathDetermined` | src/sflowtool.c:2010-2049 | Everything a path that is read fine leaves is a function of its own words: endpoints, path, line and iterations; nothing of an earlier record remains. |
| `PathPrinted.PrintedLineTellsPath` | src/sflowtool.c:2010-2049 | From the words to the text and back: the characters that the reader prints for a path of non-empty sets and sequences, no two sequences adjacent, parse back to the path it delivered. |
| `PathText.CharactersShown` | src/sflowtool.c:2017-2049 | As characters: numbers joined by dashes, a set, of kind 1, in parentheses. |
| `PathText.LinesAreTokens` | src/sflowtool.c:2017-2049 | What the path reader prints for a path without empty segments is its numbers joined by dashes, with parentheses around the sets. |
| `PathText.PrintedPathReadsBack` | src/sflowtool.c:2017-2049 | The printed text of a path of sets and sequences, without empty segments and without two adjacent sequences, parses back to the same segments and numbers. |
| `PathText.PrintingIsInjective` | src/sflowtool.c:2017-2049 | Two such paths with the same text are the same path. |
| `PathText.PrintsAlike` | src/sflowtool.c:2017-2049 | Exactly which paths print alike: two paths of non-empty sets and sequences have the same text if and only if they are equal once neighbouring sequences are run together. |
| `PathText.TwoPathsOneText` | src/sflowtool.c:2017-2049 | Two different paths with one text: the sequences 1 and 2, and the sequence 1, 2. |
| `PathText.MergedPrintsAlike` | src/sflowtool.c:2017-2049 | Running neighbouring sequences together gives a path that prints the same and can be read back. |
| `PathText.TextLexes` | src/sflowtool.c:2029-2045 | The characters of a path can be cut back into its tokens in one way only. |
| `Decimal.ReadBack` | src/sflowtool.c:2038 | A printed number in front of anything but a digit is read back as that number. |
| `Context.ReadSamplesPlaced` | src/sflowtool.c:7563-7604 | The sample loop does not look around: with other words behind the ones it consumes, another trace in front or other work counted, it does the same. |
| `Context.ReadFlowSamplePlaced` | src/sflowtool.c:3036-3255 | The same for one flow sample. |
| `Context.ReadRecordPlaced` | src/sflowtool.c:3123-3251 | The same for every record reader. |
| `Context.ReadPathPlaced` | src/sflowtool.c:2010-2049 | The same for the AS path reader. |
| `RoundTrip.PathAt` | src/sflowtool.c:2010-2049 | Reading an encoded AS path of any number of segments of any lengths delivers that path and its endpoints and stops right behind it. |
| `RoundTrip.GatewayAt` | src/sflowtool.c:1991-2078 | The gateway reader on an encoded record stops right behind it, with the steps that `GatewayAfter` evaluates. |
| `RoundTrip.GatewayAfter` | src/sflowtool.c:1991-2078 | Those steps leave the values, the path, the endpoints and the lines of the record. |
| `RoundTrip.SwitchAt` | src/sflowtool.c:1899-1913 | The switch reader on an encoded record of any values ends fine right behind it, with the steps that `SwitchAfter` evaluates. |
| `RoundTrip.RouterAt` | src/sflowtool.c:1920-1933 | The router reader on an encoded record of any values ends fine right behind it, with the steps that `RouterAfter` evaluates. |
| `RoundTrip.UserAt` | src/sflowtool.c:2085-2107 | The user reader on an encoded record of any values ends fine right behind it, with the steps that `UserAfter` evaluates. |
| `RoundTrip.UrlAt` | src/sflowtool.c:2114-2127 | The URL reader on an encoded record of any values ends fine right behind it, with the steps that `UrlAfter` evaluates. |
| `RoundTrip.MplsAt` | src/sflowtool.c:2171-2182 | The MPLS reader on an encoded record of any values ends fine right behind it, with the steps that `MplsAfter` evaluates. |
| `RoundTrip.NatAt` | src/sflowtool.c:2189-2198 | The NAT reader on an encoded record of any values ends fine right behind it, with the steps that `NatAfter` evaluates. |
| `RoundTrip.OtherAt` | src/sflowtool.c:1887-1892 | An encoded record of an unknown tag is skipped, with its padding, and leaves its skip line. |
| `RoundTrip.SwitchAfter` | src/sflowtool.c:1899-1913 | A decoded switch record leaves its four values and their lines. |
| `RoundTrip.RouterAfter` | src/sflowtool.c:1920-1933 | A decoded router record leaves its next hop and masks and their lines. |
| `RoundTrip.UserAfter` | src/sflowtool.c:2085-2107 | A decoded user record leaves the first 199 bytes of both names, their charsets and the lengths that were sent. |
| `RoundTrip.UrlAfter` | src/sflowtool.c:2114-2127 | A decoded URL record leaves its direction, the first 199 bytes of its URL and its host, and both lengths. |
| `RoundTrip.MplsAfter` | src/sflowtool.c:2171-2182 | A decoded MPLS record leaves its next hop and has printed both label stacks. |
| `RoundTrip.NatAfter` | src/sflowtool.c:2189-2198 | A decoded NAT record leaves both addresses. |
| `RoundTrip.ReadAddrAt` | src/sflowtool.c:1868-1878 | An encoded address, of four bytes for type 1 and of sixteen for any other type, is read back with its type. |
| `RoundTrip.ReadStrAt` | src/sflowtool.c:1856-1866 | Of an encoded string of any length as many bytes are kept as fit in front of a final zero; all of it is skipped, with its padding. |
| `DatagramTrip.ElementAt` | src/sflowtool.c:3114-3253 | An encoded record of any kind, with defined header protocols, passes its length check and is followed by whatever was encoded behind it. |
| `DatagramTrip.FlowSampleAt` | src/sflowtool.c:3036-3255 | An encoded flow sample passes its own length check, its source and ports unpacked, or exits if a header protocol in it is not defined. |
| `DatagramTrip.SamplesAt` | src/sflowtool.c:7563-7604 | Any number of encoded samples is read to the end, or to the first header protocol that is not defined. |
| `Xdr.WordsOfBytes` | src/sflowtool.c:1679-1693 | Reading words gives back the words that were written (RFC 4506, section 4.2). |
| `Xdr.BytesOfPack` | src/sflowtool.c:1711-1718 | A run of bytes padded to words gives back its bytes (RFC 4506, sections 4.10 and 4.11). |
| `Xdr.WordsAt` | src/sflowtool.c:1679-1693 | Reading on from a word boundary reads the words from there on. |
| `SampleState.CStringEnds` | src/sflowtool.c:1856-1866 | Of a kept string is printed what lies in front of its first zero byte. |
| `SampleObject.SkipLimit` | src/sflowtool.c:1711-1718 | For every 32-bit skip, wrap-around of skip + 3 included, the two tests of the skip fail exactly when fewer padded words are left. |
| `SampleObject.SFSample.constructor` | src/sflowtool.c:7636-7640 | A fresh sample structure: everything zero, the cursor at the start of the buffer. |
| `SampleObject.SFSample.GetData32` | src/sflowtool.c:1679-1693 | Delivers the next big-endian word and passes it, or aborts at the end of the buffer. |
| `SampleObject.SFSample.SkipBytes` | src/sflowtool.c:1711-1718 | Passes the padded words of a byte count, or aborts when they do not all lie in the buffer. |
| `SampleObject.SFSample.GetString` | src/sflowtool.c:1856-1866 | Keeps what fits the buffer of a counted string, passes all of it, stores the length that was sent. |
| `SampleObject.SFSample.GetAddress` | src/sflowtool.c:1868-1878 | Type 1 has four bytes, every other type sixteen. |
| `SampleObject.SFSample.LengthCheck` | src/sflowtool.c:855-865 | Aborts with a length error exactly when `FlowDecode.LengthCheck` does, from any byte offset that flow records have moved on from, and changes nothing. |
| `SampleObject.SFSample.AddAsNumber` | src/sflowtool.c:2028-2042 | One AS number: endpoints and text: the in-place version ends as the reader function `TakeAsNumber` does and leaves the state it describes. |
| `SampleObject.SFSample.ReadSegmentAses` | src/sflowtool.c:2025-2043 | Loop over the AS numbers of a segment: the in-place version ends as the reader function `ReadAsNumbers` does and leaves the state it describes. |
| `SampleObject.SFSample.ReadAsPathSegments` | src/sflowtool.c:2019-2047 | Loop over the segments: the in-place version ends as the reader function `ReadSegments` does and leaves the state it describes. |
| `SampleObject.SFSample.ReadFlowElements` | src/sflowtool.c:3114-3253 | Loop over the records: the in-place version ends as the reader function `ReadElements` does and leaves the state it describes. |
| `SampleObject.SFSample.ReadExtendeds` | src/sflowtool.c:2976-3003 | Loop over the extended records: the in-place version ends as the reader function `ReadExtendeds` does and leaves the state it describes. |
| `SampleObject.SFSample.ReadSamples` | src/sflowtool.c:7562-7604 | Loop over the samples: the in-place version ends as the reader function `ReadSamples` does and leaves the state it describes. |
| `CounterRecords.ReadCounters` | src/sflowtool.c:7207-7500 | A counter record of any tag goes forward and pays at least four bytes of the datagram for every iteration of its loops, however it ends. |
| `CounterRecords.ReadCustom` | src/sflowtool.c:3346-3415 | The same for the record of 45 packed bytes, whose pairs are gone through before they are skipped: a loop that would reach over the end is no completed one. |
| `CounterSamples.ReadCountersSample` | src/sflowtool.c:7164-7512 | However a version 5 counter sample ends, it has taken back no line, stored neither the path nor its endpoints nor the version, and paid for its loops. |
| `CounterSamples.ReadCountersSampleV24` | src/sflowtool.c:4110-4173 | The same for a counter sample of version 2 or 4. |
| `CounterSamples.RoundedLengths` | src/sflowtool.c:855-865 | The two lengths rounded in 32 bits agree exactly when the words passed, rounded up, are those of the declared length, modulo 2^30. |
| `CounterSamples.SignedLength` | src/sflowtool.c:855-860 | Rounding a declared length that was passed as a signed int gives the same 32 bits. |
| `CounterObject.CounterSample.ReadCountersSample` | src/sflowtool.c:7164-7512 | In place: outcome, stored fields, lines and iterations of `CounterSamples.ReadCountersSample`, and its cursor if it returns. |
| `CounterObject.CounterSample.ReadRecords` | src/sflowtool.c:7190-7506 | The counted loop over the records equals its recursive description. |
| `CounterObject.CounterSample.ReadCustom` | src/sflowtool.c:3346-3415 | Only a UUID of exactly 36 characters has its pairs read; then they are the big-endian words and double words behind the structure, as many as the rest of the length holds, all inside the datagram. |
| `CounterObject.CounterSample.ReadAdaptors` | src/sflowtool.c:3630-3648 | The loops over adaptors and their addresses equal their recursive description. |
| `CounterObject.CounterSample.ReadStats` | src/sflowtool.c:7026-7034 | The loop over protocols or applications equals its recursive description; an entry behind the end of its table ends it. |
| `CounterObject.CounterSample.LengthCheck` | src/sflowtool.c:855-865 | The length check from and to any byte offset. |
| `CounterObject.CounterSample.SkipBytes` | src/sflowtool.c:1711-1718 | Passes the padded words of a byte count from any byte offset, wrap-around of the count included, or aborts. |
| `PerEntry.RecordConserved` | src/sflowtool.c:7329-7421 | A per-entry record of any of the nine kinds that does not abort moves the cursor by exactly its declared length if and only if its counter part is below 65536 bytes. |
| `PerEntry.RecordWraps` | src/sflowtool.c:4210-4239 | Otherwise the cursor stays behind by a multiple of 65536 bytes: the 16-bit parse length sees the remainder only. |
| `PerEntry.RecordFallsBehind` | src/sflowtool.c:4210-4239 | Such a record: a UDP record of declared length 65596 is read fine from 60 bytes, and the cursor stops there. |
| `PerEntry.CommonEnd` | src/sflowtool.c:5299-5328 | The common header is read fine exactly when its 48 bytes are there and both types have names; a type without one ends it at once, unchecked. |
| `PerEntry.RecordRead` | src/sflowtool.c:4207-4242 | A record with n whole counters is read if and only if n is positive, its table type and IP type have names, and the counters that are looked at lie in the buffer; those that are stepped over need not. |
| `PerEntry.PartialCounterAborts` | src/sflowtool.c:4212-4216 | A counter part that is not a whole number of counters is refused. |
| `PerEntry.NewerAgent` | src/sflowtool.c:4218-4240 | A record with more counters than the local structure gives the same header, port and counters as its truncation to that structure, and the cursor moves by its full length; if one of its types has no name, both end there. |
| `PerEntry.OlderAgent` | src/sflowtool.c:4218-4234 | A record with fewer counters is read if and only if its types have names; it sets field i to the i-th big-endian 64-bit word for every i it carries and leaves every later field unchanged. |
| `PerEntry.NewerAgent32` | src/sflowtool.c:4244-4278 | The same for structures of 32-bit counters: more counters than the structure has give what their truncation gives. |
| `PerEntry.OlderAgent32` | src/sflowtool.c:4244-4271 | Fewer 32-bit counters set the fields they carry and leave every later one unchanged. |
| `PerEntry.RestOfContext` | src/sflowtool.c:4183-4202 | The context length that is left is accepted exactly when it is positive as a signed 32-bit number. |
| `CounterObject.CounterSample.GetDDoSAddress` | src/sflowtool.c:4462-4474 | Either family takes sixteen bytes; only the low byte of the type decides between them. |
| `CounterObject.CounterSample.ReadCommon` | src/sflowtool.c:5299-5328 | The common header ends as `PerEntry.CommonEnd` says; if fine, the cursor is 48 bytes on and the header stored. |
| `CounterObject.CounterSample.ReadPort` | src/sflowtool.c:5330-5338 | The port and the application type. |
| `CounterObject.CounterSample.UpdateCtxLen` | src/sflowtool.c:4183-4202 | Takes the header off the context length or aborts. |
| `CounterObject.CounterSample.PopulateU64` | src/sflowtool.c:4207-4242 | Field i becomes the i-th 64-bit word for i below both counts, later fields stay; aborts on an empty or partial counter part and at the end of the buffer; the cursor moves by the parse length. |
| `CounterObject.CounterSample.PopulateU32` | src/sflowtool.c:4244-4279 | The same for 32-bit counters. |
| `CounterObject.CounterSample.ReadPerEntry` | src/sflowtool.c:7329-7421 | One record of any kind: outcome, cursor, header, port and counters are those of `EntryAt`, which `EntryTrip.EntryLies` tells for the records that agents write. |
| `InternetChecksum.InChecksum` | src/sflowtool.c:1414-1434 | For every buffer of at most 65537 bytes, odd lengths included, the 32-bit signed sum does not overflow and the two folds give the complement of the one's complement sum of the words. |
| `InternetChecksum.Fold` | src/sflowtool.c:1428-1431 | The one's complement sum is congruent to the word sum modulo 65535 and zero only if that is zero. |
| `InternetChecksum.TwoFolds` | src/sflowtool.c:1428-1430 | Two folds of any 31-bit sum, the second without a mask, are enough. |
| `InternetChecksum.SumBound` | src/sflowtool.c:1421-1426 | The largest sum of a buffer of a given length. |
| `InternetChecksum.BoundIsSharp` | src/sflowtool.c:1421-1426 | A buffer of 65538 bytes can overflow the sum. |
| `InternetChecksum.Rechecks` | src/sflowtool.c:1528-1530 | A buffer with the checksum of its words, zero sent as 65535, checks to zero if and only if its checksum field was 0 or 65535 while it was summed. |
| `InternetChecksum.SwappedChecksum` | src/sflowtool.c:1414-1434 | The checksum of the byte-swapped words is the byte-swapped checksum (RFC 1071, section 2). |
| `InternetChecksum.OddPadded` | src/sflowtool.c:1426-1428 | A last byte of its own counts as if a zero byte followed it. |
| `InternetChecksum.ReorderedChecksum` | src/sflowtool.c:1414-1434 | Any reordering of the 16-bit words leaves the checksum unchanged (RFC 1071, section 2). |
| `SpoofedPacket.SendPacket.FillHeader` | src/sflowtool.c:1484-1498 | Exactly the length, identification, source and checksum fields of the header and the data are set. |
| `SpoofedPacket.SendPacket.StoreUdpChecksum` | src/sflowtool.c:1502-1533 | After save, overwrite, checksum and restore, only the two bytes of the UDP checksum differ. |
| `SpoofedPacket.SendPacket.SendDatagram` | src/sflowtool.c:1482-1533 | For every payload that fits: outside the two checksum fields the buffer is the filled packet, both stored checksums are not zero, the UDP checksum checks to zero under the pseudo-header (RFC 768), and the IP header checksum is right if and only if its field held 0 or 65535 before. |
| `SpoofedPacket.SendPacket.constructor` | src/sflowtool.c:1462-1475 | The packet as prepared for the socket: version, protocol, time to live, destination and ports set, everything else zero. |
| `SpoofedPacket.OpenedFields` | src/sflowtool.c:1462-1473 | Where the prepared fields are: version and header length, time to live, protocol, destination and both ports at their offsets (RFC 791, RFC 768), zero everywhere else. |
| `SpoofedPacket.PacketFields` | src/sflowtool.c:1484-1494 | Where the fields of any packet are that is sent: total length, identification, source, UDP length and data at their offsets; the prepared fields are kept. |
| `SpoofedPacket.PseudoFields` | src/sflowtool.c:1513-1517 | The pseudo-header: source, destination, zero, 17 and the UDP length. |
| `SpoofedPacket.HeaderRight` | src/sflowtool.c:1482-1498 | The IP header checksum of a packet is never stored as zero, and is right if and only if its field held 0 or 65535 before. |
| `SpoofedPacket.FirstPacketRight` | src/sflowtool.c:1482-1498 | The first packet has a right IP header checksum. |
| `SpoofedPacket.NextPacketRight` | src/sflowtool.c:1495 | Any later packet has one if and only if the packet before it was sent with 65535 in the field. |
| `SpoofedPacket.SecondPacketWrong` | src/sflowtool.c:1495 | Two empty datagrams to address zero: the second one has a wrong IP header checksum. |
| `SpoofedPacket.DatagramRight` | src/sflowtool.c:1502-1530 | The UDP checksum of every packet is right. |
| `SpoofedPacket.DatagramChecks` | src/sflowtool.c:1511-1530 | Summing pseudo-header and datagram with the stored checksum gives 0. |
| `SpoofedPacket.HeaderChecks` | src/sflowtool.c:1495-1498 | The header checksum field is summed with its old value: the result is right exactly for 0 and 65535. |
| `SpoofedPacket.Restored` | src/sflowtool.c:1519-1533 | Laying the pseudo-header over the header and the saved bytes back leaves no byte of it. |
| `LinkLayer.Header.DecodeLinkLayer` | src/sflowtool.c:880-1007 | Finds the IPv4 or IPv6 header behind Ethernet, one 802.1Q tag, LLC or SNAP; stores both addresses, the VLAN, the type and the offset, or none of them. |
| `LinkLayer.PcapOffsetToSFlow` | src/sflowtool.c:7792-7911 | The offset of the UDP payload behind any number of tags, or -1; the tag loop ends and any offset lies inside the frame. |
| `LinkLayer.PayloadMeansHeader` | src/sflowtool.c:7792-7911 | On every frame with no tag or one 0x8100 tag around a type that is no tag: if the capture decoder returns r, then for IPv4 the sample decoder finds IPv4 and r is its offset plus the header length plus 8, and for IPv6 its offset plus 48. |
| `LinkLayer.HeaderMeansPayload` | src/sflowtool.c:880-1007 | Conversely the payload behind a header that was found is returned exactly when 34 bytes follow the type field and the payload starts inside the frame, and -1 otherwise. |
| `LinkLayer.MoreTagsHideIp` | src/sflowtool.c:903-923 | On every other frame the sample decoder finds no IP header, so the agreement cannot be wider. |
| `LinkLayer.LinkOf` | src/sflowtool.c:981-1006 | An IPv4 header that is found is complete, of version 4 and at least 20 bytes long; an IPv6 header is of version 6. |
| `LinkLayer.SkipTags` | src/sflowtool.c:7808-7822 | Skipping tags ends, with a type that is no tag and, if any was skipped, inside the frame. |
| `LinkLayer.Extensions` | src/sflowtool.c:1277-1298 | The walk over IPv6 extension headers ends; every pass advances at least 6 bytes; a protocol that is stored is none of 0, 43, 44, 51 and 60. |
| `LinkLayer.WalkMeets` | src/sflowtool.c:1277-1298 | Over any number of headers: the first byte of each is the next type, its second byte n takes the walk 8n + 6 bytes on, and the type behind the last one is stored unless that lies behind the end. |
| `LinkLayer.OneHeader` | src/sflowtool.c:1284-1291 | Behind one extension header (RFC 8200, section 4) the type is right, and the walk two bytes early. |
| `LinkLayer.SecondHeader` | src/sflowtool.c:1284-1291 | Of a second header nothing is looked at in its place: the last two bytes of the first one are taken for its next type and its length. |
| `LinkLayer.TwoHeadersMissed` | src/sflowtool.c:1277-1298 | A TCP packet behind a hop-by-hop and a destination options header: no protocol is stored. |
| `LinkLayer.Header.DecodeIPV6` | src/sflowtool.c:1216-1300 | Stores both addresses, the hop limit, the priority and the protocol of `LinkLayer.Ip6Of`; if the walk runs off the header, no protocol; without an IPv6 header of version 6, nothing. |
| `TextEncoders.UrlEncode` | src/sflowtool.c:643-663 | With room for 3n + 1 bytes writes the encoding and a final zero and touches nothing behind them; without, nothing. |
| `TextEncoders.DecodeEncoded` | src/sflowtool.c:643-663 | Percent and plus decoding (RFC 3986, section 2.1) gives back the text with its white space as spaces. |
| `TextEncoders.EncodedAlike` | src/sflowtool.c:643-663 | Two texts have the same encoding if and only if they differ in nothing but the kind of their white space. |
| `TextEncoders.EncodedIsPlain` | src/sflowtool.c:650-660 | Only letters, digits, plus and percent signs come out. |
| `TextEncoders.CharEncoded` | src/sflowtool.c:650-660 | Just the letters and digits stay, just white space becomes a plus, and every other character a percent sign and two digits. |
| `TextEncoders.PrintHex` | src/sflowtool.c:608-637 | Writes as many whole bytes of the dump as fit and a final zero; with a buffer of at least 10 bytes the zero is at most at the third last place. |
| `TextEncoders.DumpShows` | src/sflowtool.c:611-633 | Where in a dump the digits of the i-th byte are, which bytes are followed by a line end, a dash or nothing, and where the marker is. |
| `TextEncoders.DumpIsHex` | src/sflowtool.c:611-633 | Without separators, line ends and marker a dump is the hex of a prefix of the input. |
| `TextEncoders.DumpReadsBack` | src/sflowtool.c:611-633 | That prefix can be read back from the dump. |
| `VlanFilter.FilterConfig.ParseVlanFilter` | src/sflowtool.c:7988-8015 | Marks every item of a list, in order; ends the program with -19 where a number is missing and with -20 where one is out of range. |
| `VlanFilter.FilterConfig.MarkItem` | src/sflowtool.c:7996-8012 | A range marks its numbers; a reversed range marks its first number only. |
| `VlanFilter.FilterConfig.VlanOption` | src/sflowtool.c:8237-8253 | One +v or -v option: only a first -v starts from every number below 4096 included. |
| `VlanFilter.FilterConfig.ProcessOptions` | src/sflowtool.c:8237-8253 | Any sequence of options, up to the first one that ends the program. |
| `VlanFilter.CommandLineMeans` | src/sflowtool.c:7988-8015 | From the text of a command line to the filter: options that list numbers and ranges in any notation, taken for 4096 at most, between any spaces and commas, are always read to the end, and a number is included exactly if the last entry that covers it stands in an include option or, if no entry does, the first option excludes and the number is below 4096. |
| `VlanFilter.FilterMeans` | src/sflowtool.c:8237-8253 | After any options with well-formed lists a number is included exactly if the last item that covers it says so, or, if none covers it, the default of the first option's sign. |
| `VlanFilter.FilterConfig.SampleFilterOK` | src/sflowtool.c:710-719 | For the filter that any well-formed options have set up and any 32-bit VLAN numbers of a sample: it passes if and only if there was no option or one of its numbers is included; the filter is indexed outside its 4097 entries exactly if there was an option and the first number is above 4096, or the first is not included and the second is above 4096. |
| `VlanFilter.ReadToTheEnd` | src/sflowtool.c:8237-8253 | A command line is read to the end exactly when each of its lists is well-formed. |
| `VlanFilter.ListRead` | src/sflowtool.c:7988-8015 | Any list of numbers and ranges, in decimal, octal or hexadecimal, between any spaces and commas, whose values as `NumberRead` gives them are at most 4096, parses to just those items. |
| `VlanFilter.ListRefused` | src/sflowtool.c:7973-8006 | Behind any such items the first place without a number, at the start of an item or as the end of a range, ends the program with -19, and the first number above 4096 with -20, whatever follows. |
| `VlanFilter.NumberRead` | src/sflowtool.c:7996-8004 | A numeral of any size n in any of the three notations is taken for n modulo 2^32 if n is below 2^63, and refused from there on; it is accepted if and only if what it is taken for is at most 4096. |
| `VlanFilter.TooLongForAnId` | src/sflowtool.c:7996 | 4294967297 is taken for VLAN 1. |
| `VlanFilter.EightBehindZero` | src/sflowtool.c:7993-8014 | 08 is taken for the two VLANs 0 and 8. |

## Left out

What the program does and the model does not:

- Input and output: sockets, the select loop, pcap files, NetFlow export beyond the send buffer, OpenTSDB and LevelDB, JSON, syslog, host names, forwarding, and the command line beyond the VLAN options.
- The values of counters and their lines: decoded counter samples keep the sequence number, the source, the VLAN, the tags and the skip lines; `PerEntry` and `CounterObject` keep the per-entry counters and the pairs of the 45-byte record. Fixed layouts are passed over as so many bytes, and the two addresses of a per-entry header are not copied into its structure.
- What follows once the program leaves the memory of the datagram and its tables (`Outside`): an array whose count wraps around 32 bits is skipped as the remainder and then looked at 4 GB and more behind its start; an index from the wire is used without a check; the 45-byte record is looked at without one.
- Values after an abort: each read checks the end of the buffer first, because a value read past it is never used. What an abort leaves half done in a buffer or an address is not described, nor where it leaves the cursor among counters.
- The decode of a sampled packet header beyond the VLAN tag: the IP and transport fields, 802.11 headers and what is printed for them. `LinkLayer` models the link layer and the IPv6 walk on their own.
- The records that are only printed (Ethernet, memcache, HTTP, application, tunnel, 802.11 and others) appear in the trace as the words and strings they consist of, not as named lines, and the addresses, types and ports among them are not stored; of the IPv4 and IPv6 structures the header length, the packet size and the bytes are kept.
- The text of lines: a line is an event with its value. The AS path is the exception. Addresses, time stamps, the CLF line (with its lookup of the HTTP method), the datagram size line and the hex dump of a bad datagram have no event.
- The length of the printed header bytes: the trace holds them all, the program prints the prefix that `TextEncoders.PrintHex` describes.
- Fields of the sample structure are kept in maps by name, and the readers of counters work on an object of their own that takes the cursor and the fields and gives them back. That the fields lie side by side in one structure is not modelled.
- Floating point values and percentages.
- The NetFlow fields of the exported packet.
- Insertion of unknown records (`Forward`) into datagrams that also hold counter samples.

Contracts that are weaker than the program:

- FullDecode.Decode: says nothing of what follows one of the three steps that leave the memory of the datagram and its tables.
- SampleObject.ReceiveSFlowDatagram: the same, and leaves open where the cursor is if the decode does not return.
- SampleObject.SFSample.LengthCheck: assumes that signed 32-bit addition wraps around.
- CounterObject.CounterSample.LengthCheck: assumes that signed 32-bit addition wraps around.
- CounterObject.CounterSample.UpdateCtxLen: assumes that signed 32-bit subtraction wraps around, for declared lengths of 2^31 and more.
- CounterObject.CounterSample.PopulateU64: leaves open where the cursor is after an abort, which nothing reads.
- CounterObject.CounterSample.PopulateU32: leaves open where the cursor is after an abort, which nothing reads.
- CounterObject.CounterSample.ReadCustom: does not model what is written to the databases from the pairs.
- LinkLayer.Header.DecodeLinkLayer: does not model the printed lines; the priority is only printed.
- LinkLayer.Header.DecodeIPV6: does not model the printed lines; flow label and payload length are only printed.
- VlanFilter.FilterConfig.ParseVlanFilter: leaves open what is marked when the program ends.
- TextEncoders.UrlEncode: is for 7-bit text; the character class functions are not defined on negative characters.
- InternetChecksum.InChecksum: is for at most 65537 bytes, because the signed sum can overflow beyond.
