/** XDR data (RFC 4506): everything is a whole number of big-endian 32-bit
    words, and a run of bytes is padded to words with zero bytes. */
module Xdr {

  type byte = b: nat | b < 256
  type u16 = n: nat | n < 0x1_0000
  type u32 = n: nat | n < 0x1_0000_0000

  /** The number of words that n bytes take. */
  function Quads(n: nat): (q: nat)
    ensures n <= 4 * q < n + 4
  {
    (n + 3) / 4
  }

  /** The word that four bytes stand for, the first one highest. */
  function Join(b0: byte, b1: byte, b2: byte, b3: byte): u32 {
    (b0 as int) * 0x100_0000 + (b1 as int) * 0x1_0000 + (b2 as int) * 0x100 + b3 as int
  }

  function Split(w: u32): (s: seq<byte>)
    ensures |s| == 4 && Join(s[0], s[1], s[2], s[3]) == w
  {
    var hi, lo := w / 0x1_0000, w % 0x1_0000;
    [hi / 0x100, hi % 0x100, lo / 0x100, lo % 0x100]
  }

  lemma SplitJoin(b0: byte, b1: byte, b2: byte, b3: byte)
    ensures Split(Join(b0, b1, b2, b3)) == [b0, b1, b2, b3]
  {
    var w := Join(b0, b1, b2, b3);
    assert w / 0x1_0000 == (b0 as int) * 0x100 + b1 as int;
    assert w % 0x1_0000 == (b2 as int) * 0x100 + b3 as int;
  }

  /** The bytes of a run of words. */
  function Bytes(ws: seq<u32>): (bs: seq<byte>)
    ensures |bs| == 4 * |ws|
  {
    if ws == [] then [] else Split(ws[0]) + Bytes(ws[1..])
  }

  /** The whole words at the front of a run of bytes. */
  function Words(bs: seq<byte>): (ws: seq<u32>)
    ensures |ws| == |bs| / 4
  {
    if |bs| < 4 then [] else [Join(bs[0], bs[1], bs[2], bs[3])] + Words(bs[4..])
  }

  /** The words of a run of bytes that is padded with zeros at the end. */
  function Pack(bs: seq<byte>): (ws: seq<u32>)
    ensures |ws| == Quads(|bs|)
  {
    if bs == [] then []
    else if |bs| < 4 then
      var padded := bs + seq(4 - |bs|, _ => 0);
      [Join(padded[0], padded[1], padded[2], padded[3])]
    else [Join(bs[0], bs[1], bs[2], bs[3])] + Pack(bs[4..])
  }

  lemma {:induction false} WordsOfBytes(ws: seq<u32>)
    ensures Words(Bytes(ws)) == ws
  {
    if ws == [] {
    } else {
      var bs := Bytes(ws);
      assert bs[4..] == Bytes(ws[1..]);
      WordsOfBytes(ws[1..]);
    }
  }

  lemma {:induction false} BytesOfPack(bs: seq<byte>)
    ensures Bytes(Pack(bs))[..|bs|] == bs
  {
    if bs == [] {
    } else if |bs| < 4 {
      var padded := bs + seq(4 - |bs|, _ => 0);
      SplitJoin(padded[0], padded[1], padded[2], padded[3]);
      assert Bytes(Pack(bs)) == [padded[0], padded[1], padded[2], padded[3]] + Bytes([]);
    } else {
      BytesOfPack(bs[4..]);
      SplitJoin(bs[0], bs[1], bs[2], bs[3]);
      assert Pack(bs)[1..] == Pack(bs[4..]);
      assert Bytes(Pack(bs)) == bs[..4] + Bytes(Pack(bs[4..]));
      assert Bytes(Pack(bs))[..|bs|] == bs[..4] + Bytes(Pack(bs[4..]))[..|bs| - 4];
    }
  }

  /** Reading word by word is reading the bytes from a word boundary on. */
  lemma {:induction false} WordsAt(bs: seq<byte>, n: nat)
    requires 4 * n <= |bs|
    ensures Words(bs)[n..] == Words(bs[4 * n..])
  {
    if n == 0 {
    } else {
      WordsAt(bs[4..], n - 1);
      assert bs[4..][4 * (n - 1)..] == bs[4 * n..];
    }
  }

  lemma BytesStep(w: u32, ws: seq<u32>)
    ensures Bytes([w] + ws) == Split(w) + Bytes(ws)
  {
    assert ([w] + ws)[1..] == ws;
  }

  lemma LastPads(bs: seq<byte>)
    requires 0 < |bs| < 4
    ensures Bytes(Pack(bs)) == bs + seq(4 - |bs|, _ => 0)
  {
    hide Join, Split;
    var padded := bs + seq(4 - |bs|, _ => 0);
    SplitJoin(padded[0], padded[1], padded[2], padded[3]);
    assert Bytes(Pack(bs)) == [padded[0], padded[1], padded[2], padded[3]] + Bytes([]);
  }

  /** The padding is zero bytes up to the end of the last word. */
  lemma {:induction false} PackPads(bs: seq<byte>)
    ensures Bytes(Pack(bs)) == bs + seq(4 * Quads(|bs|) - |bs|, _ => 0)
  {
    hide Join, Split, Bytes;
    if bs == [] {
      NoBytes();
    } else if |bs| < 4 {
      LastPads(bs);
    } else {
      var w := Join(bs[0], bs[1], bs[2], bs[3]);
      PackPads(bs[4..]);
      SplitJoin(bs[0], bs[1], bs[2], bs[3]);
      BytesStep(w, Pack(bs[4..]));
      assert bs == [bs[0], bs[1], bs[2], bs[3]] + bs[4..];
    }
  }

  /** The first bytes of the words are the first bytes. */
  lemma {:induction false} BytesAt(bs: seq<byte>, n: nat)
    requires n <= |bs| / 4
    ensures Bytes(Words(bs)[..n]) == bs[..4 * n]
  {
    hide Join, Split, Bytes;
    if n == 0 {
      NoBytes();
    } else {
      var w := Join(bs[0], bs[1], bs[2], bs[3]);
      BytesAt(bs[4..], n - 1);
      SplitJoin(bs[0], bs[1], bs[2], bs[3]);
      BytesStep(w, Words(bs[4..])[..n - 1]);
      assert Words(bs)[..n] == [w] + Words(bs[4..])[..n - 1];
      assert bs[..4 * n] == bs[..4] + bs[4..][..4 * (n - 1)];
      assert bs[..4] == [bs[0], bs[1], bs[2], bs[3]];
    }
  }

  lemma NoBytes()
    ensures Bytes([]) == []
  {
  }
}
