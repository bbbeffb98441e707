/** Values as an agent lays them out in bytes, highest byte first, and finding them
    again anywhere in a buffer. */
module ByteFields {
  import opened Xdr
  import opened PerEntry

  /** The bytes bs lie in the buffer from `at` on. */
  predicate Lies(bs: seq<byte>, raw: seq<byte>, at: nat) {
    at + |bs| <= |raw| && raw[at..at + |bs|] == bs
  }

  lemma LiesParts(a: seq<byte>, b: seq<byte>, raw: seq<byte>, at: nat)
    requires Lies(a + b, raw, at)
    ensures Lies(a, raw, at) && Lies(b, raw, at + |a|)
  {
    var bs := raw[at..at + |a + b|];
    assert raw[at..at + |a|] == bs[..|a|] && raw[at + |a|..at + |a| + |b|] == bs[|a|..];
    assert (a + b)[..|a|] == a && (a + b)[|a|..] == b;
  }

  /** They lie where they were put. */
  lemma LiesBetween(front: seq<byte>, bs: seq<byte>, tail: seq<byte>)
    ensures Lies(bs, front + bs + tail, |front|)
  {
  }

  function Half(h: u16): (s: seq<byte>)
    ensures |s| == 2
  {
    [h / 0x100, h % 0x100]
  }

  function Long(d: u64): (s: seq<byte>)
    ensures |s| == 8
  {
    LongParts(d);
    Split(d / 0x1_0000_0000) + Split(d % 0x1_0000_0000)
  }

  lemma LongParts(d: u64)
    ensures d / 0x1_0000_0000 < 0x1_0000_0000
    ensures d / 0x1_0000_0000 * 0x1_0000_0000 + d % 0x1_0000_0000 == d
  {
  }

  function Halves(hs: seq<u16>): (s: seq<byte>)
    ensures |s| == 2 * |hs|
  {
    if hs == [] then [] else Half(hs[0]) + Halves(hs[1..])
  }

  function Longs(ds: seq<u64>): (s: seq<byte>)
    ensures |s| == 8 * |ds|
  {
    if ds == [] then [] else Long(ds[0]) + Longs(ds[1..])
  }

  lemma HalfLies(h: u16, raw: seq<byte>, at: nat)
    requires Lies(Half(h), raw, at)
    ensures Word16(raw, at) == h
  {
    var bs := raw[at..at + 2];
    assert raw[at] == bs[0] && raw[at + 1] == bs[1];
  }

  lemma WordLies(w: u32, raw: seq<byte>, at: nat)
    requires Lies(Split(w), raw, at)
    ensures Word32(raw, at) == w
  {
    hide Join;
    var bs := raw[at..at + 4];
    assert raw[at] == bs[0] && raw[at + 1] == bs[1] && raw[at + 2] == bs[2] && raw[at + 3] == bs[3];
  }

  lemma LongLies(d: u64, raw: seq<byte>, at: nat)
    requires Lies(Long(d), raw, at)
    ensures Word64(raw, at) == d
  {
    hide Word32, Split;
    LongParts(d);
    LiesParts(Split(d / 0x1_0000_0000), Split(d % 0x1_0000_0000), raw, at);
    WordLies(d / 0x1_0000_0000, raw, at);
    WordLies(d % 0x1_0000_0000, raw, at + 4);
  }

  lemma {:induction false} LongsLie(ds: seq<u64>, raw: seq<byte>, at: nat)
    requires Lies(Longs(ds), raw, at)
    ensures forall i :: 0 <= i < |ds| ==> Word64(raw, at + 8 * i) == ds[i]
  {
    hide Lies, Long, Word64;
    if ds == [] {
    } else {
      LiesParts(Long(ds[0]), Longs(ds[1..]), raw, at);
      LongLies(ds[0], raw, at);
      LongsLie(ds[1..], raw, at + 8);
      forall i | 0 < i < |ds|
        ensures Word64(raw, at + 8 * i) == ds[i]
      {
        assert ds[i] == ds[1..][i - 1] && at + 8 + 8 * (i - 1) == at + 8 * i;
      }
    }
  }
}
