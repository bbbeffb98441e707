/** The Internet checksum (RFC 1071) as the program sums it: little-endian 16-bit
    words in a 32-bit int, two folds, complement. */
module InternetChecksum {
  import opened Xdr

  type i32 = x: int | -0x8000_0000 <= x < 0x8000_0000

  /** The word that two bytes of memory hold on a little-endian host. */
  function Le(lo: byte, hi: byte): u16 {
    (hi as int) * 0x100 + lo as int
  }

  /** The sum of the words of a buffer; an odd last byte counts as itself. */
  function WordSum(bs: seq<byte>): nat {
    if bs == [] then 0 else if |bs| == 1 then bs[0] else Le(bs[0], bs[1]) + WordSum(bs[2..])
  }

  /** One's complement folding: the number from 1 to 65535 that is congruent to a
      positive sum, and 0 for 0. */
  function Fold(sum: nat): (f: u16)
    ensures f == 0 <==> sum == 0
    ensures f % 0xFFFF == sum % 0xFFFF
  {
    if sum == 0 then 0 else
      Congruent(sum);
      1 + (sum - 1) % 0xFFFF
  }

  lemma Congruent(sum: nat)
    requires sum > 0
    ensures (1 + (sum - 1) % 0xFFFF) % 0xFFFF == sum % 0xFFFF
  {
    var q, r := (sum - 1) / 0xFFFF, (sum - 1) % 0xFFFF;
    assert sum == 0xFFFF * q + r + 1;
  }

  function Checksum(bs: seq<byte>): u16 {
    0xFFFF - Fold(WordSum(bs))
  }

  /** Positive numbers up to 65535 that are congruent are equal. */
  lemma Folded(f: u16, sum: nat)
    requires 0 < f && 0 < sum && f % 0xFFFF == sum % 0xFFFF
    ensures f == Fold(sum)
  {
  }

  /** Two folds of a 32-bit sum, the second without a mask, are enough. */
  lemma TwoFolds(sum: nat)
    requires sum < 0x8000_0000
    ensures var once := sum / 0x1_0000 + sum % 0x1_0000;
            (once + once / 0x1_0000) % 0x1_0000 == Fold(sum)
  {
    var hi, lo := sum / 0x1_0000, sum % 0x1_0000;
    var once := hi + lo;
    var twice := (once + once / 0x1_0000) % 0x1_0000;
    assert sum == 0xFFFF * hi + once;
    CongruentBy(sum, once, hi);
    if once >= 0x1_0000 {
      assert twice == once - 0xFFFF;
      CongruentBy(once, twice, 1);
    }
    if sum > 0 {
      Folded(twice, sum);
    }
  }

  lemma CongruentBy(a: nat, b: nat, q: nat)
    requires a == 0xFFFF * q + b
    ensures a % 0xFFFF == b % 0xFFFF
  {
  }

  /** No buffer of at most 65537 bytes makes the int sum overflow. */
  lemma {:induction false} SumBound(bs: seq<byte>)
    ensures |bs| % 2 == 0 ==> WordSum(bs) <= |bs| / 2 * 0xFFFF
    ensures |bs| % 2 == 1 ==> WordSum(bs) <= |bs| / 2 * 0xFFFF + 0xFF
  {
    if |bs| < 2 {
    } else {
      SumBound(bs[2..]);
      assert |bs| / 2 == |bs[2..]| / 2 + 1;
    }
  }

  /** One byte more, and one can. */
  lemma BoundIsSharp()
    ensures exists bs: seq<byte> :: |bs| == 65538 && WordSum(bs) >= 0x8000_0000
  {
    AllOnes(32769);
  }

  lemma {:induction false} AllOnes(n: nat)
    ensures WordSum(seq(2 * n, _ => 0xFF)) == n * 0xFFFF
  {
    if n == 0 {
    } else {
      AllOnes(n - 1);
      assert seq(2 * n, _ => 0xFF)[2..] == seq(2 * (n - 1), _ => 0xFF);
    }
  }

  /** The sum of the len bytes from `at` on. */
  method InChecksum(a: array<byte>, at: nat, len: nat) returns (answer: u16)
    requires at + len <= a.Length && len <= 65537
    ensures answer == Checksum(a[at..at + len])
  {
    hide Fold, Le;
    ghost var bs := a[at..at + len];
    SumBound(bs);
    var nleft, w := len, at;
    var sum: i32 := 0;
    while nleft > 1
      invariant 0 <= nleft <= len && w + nleft == at + len && sum >= 0
      invariant sum + WordSum(a[w..at + len]) == WordSum(bs)
    {
      assert a[w..at + len][2..] == a[w + 2..at + len];
      sum := sum + Le(a[w], a[w + 1]);
      w, nleft := w + 2, nleft - 2;
    }
    if nleft == 1 {
      sum := sum + a[w];
    }
    assert sum == WordSum(bs);
    TwoFolds(sum);
    sum := sum / 0x1_0000 + sum % 0x1_0000;
    sum := sum + sum / 0x1_0000;
    answer := 0xFFFF - sum % 0x1_0000;
  }

  // Sums of parts.

  lemma {:induction false} SumJoins(a: seq<byte>, b: seq<byte>)
    requires |a| % 2 == 0
    ensures WordSum(a + b) == WordSum(a) + WordSum(b)
  {
    if a == [] {
      assert a + b == b;
    } else {
      assert (a + b)[2..] == a[2..] + b;
      SumJoins(a[2..], b);
    }
  }

  /** The sum around one aligned word. */
  lemma SumAround(a: seq<byte>, lo: byte, hi: byte, b: seq<byte>)
    requires |a| % 2 == 0
    ensures WordSum(a + [lo, hi] + b) == WordSum(a) + Le(lo, hi) + WordSum(b)
  {
    SumJoins(a + [lo, hi], b);
    SumJoins(a, [lo, hi]);
    assert [lo, hi][2..] == [];
  }

  /** What goes into a checksum field, with the rule that zero is sent as all ones. */
  function Sent(answer: u16): u16 {
    if answer == 0 then 0xFFFF else answer
  }

  /** A buffer with its checksum in an aligned field that was zero checks to zero;
      if the field held x while it was summed, it does exactly for x = 0 and x = 65535. */
  lemma Rechecks(s: nat, x: u16)
    requires s > 0
    ensures Fold(s + Sent(0xFFFF - Fold(s + x))) == 0xFFFF <==> x == 0 || x == 0xFFFF
  {
    var f := Fold(s + x);
    var c := Sent(0xFFFF - f);
    assert c % 0xFFFF == (0xFFFF - f) % 0xFFFF;
    var q, p := (s + x) / 0xFFFF, f / 0xFFFF;
    assert (s + x) - f == 0xFFFF * (q - p);
    RecheckSum(s, x, f, c, q - p);
  }

  lemma RecheckSum(s: nat, x: u16, f: u16, c: u16, q: int)
    requires s > 0 && s + x - f == 0xFFFF * q && f > 0
    requires c == if f == 0xFFFF then 0xFFFF else 0xFFFF - f
    ensures Fold(s + c) == 0xFFFF <==> x == 0 || x == 0xFFFF
  {
    var k := if f == 0xFFFF then q + 2 else q + 1;
    assert s + c == 0xFFFF * k - x;
    FoldOf(s + c, k, x);
  }

  lemma FoldOf(sum: nat, k: int, x: u16)
    requires sum > 0 && sum == 0xFFFF * k - x
    ensures Fold(sum) == 0xFFFF <==> x == 0 || x == 0xFFFF
  {
    if x == 0 || x == 0xFFFF {
      assert sum % 0xFFFF == 0 by {
        if x == 0 {
          assert sum == 0xFFFF * k;
        } else {
          assert sum == 0xFFFF * (k - 1);
        }
      }
      Folded(0xFFFF, sum);
    } else {
      assert sum == 0xFFFF * (k - 1) + (0xFFFF - x);
      assert sum % 0xFFFF == 0xFFFF - x;
    }
  }

  // Byte order and word order (section 2 of RFC 1071).

  function Swap(w: u16): u16 {
    w % 0x100 * 0x100 + w / 0x100
  }

  function SwapBytes(bs: seq<byte>): (r: seq<byte>)
    requires |bs| % 2 == 0
    ensures |r| == |bs|
  {
    if bs == [] then [] else [bs[1], bs[0]] + SwapBytes(bs[2..])
  }

  /** The sum of the high bytes of the words. */
  function HighSum(bs: seq<byte>): nat
    requires |bs| % 2 == 0
  {
    if bs == [] then 0 else bs[1] + HighSum(bs[2..])
  }

  lemma {:induction false} SwappedSum(bs: seq<byte>)
    requires |bs| % 2 == 0
    ensures 0x100 * WordSum(bs) == 0xFFFF * HighSum(bs) + WordSum(SwapBytes(bs))
    ensures WordSum(bs) == 0 <==> WordSum(SwapBytes(bs)) == 0
  {
    if bs == [] {
    } else {
      SwappedSum(bs[2..]);
      assert SwapBytes(bs)[2..] == SwapBytes(bs[2..]);
    }
  }

  lemma SwapFold(f: u16)
    requires f > 0
    ensures 0 < Swap(f) && 0x100 * f == 0xFFFF * (f / 0x100) + Swap(f)
    ensures Swap(0xFFFF - f) == 0xFFFF - Swap(f)
  {
    assert (0xFFFF - f) % 0x100 == 0xFF - f % 0x100;
    assert (0xFFFF - f) / 0x100 == 0xFF - f / 0x100;
  }

  /** The checksum of the byte-swapped words is the byte-swapped checksum. */
  lemma SwappedChecksum(bs: seq<byte>)
    requires |bs| % 2 == 0
    ensures Checksum(SwapBytes(bs)) == Swap(Checksum(bs))
  {
    hide WordSum, SwapBytes, HighSum, Swap, Fold;
    SwappedSum(bs);
    var s, t := WordSum(bs), WordSum(SwapBytes(bs));
    if s > 0 {
      SwappedFold(s, t, HighSum(bs));
      SwapFold(Fold(s));
    } else {
      SwapOnes();
    }
  }

  lemma SwapOnes()
    ensures Swap(0xFFFF - Fold(0)) == 0xFFFF - Fold(0)
  {
  }

  lemma SwappedFold(s: nat, t: nat, q: int)
    requires s > 0 && t > 0 && 0x100 * s == 0xFFFF * q + t
    ensures Swap(Fold(s)) == Fold(t)
  {
    hide Swap, Fold;
    var f := Fold(s);
    SwapFold(f);
    var m := s / 0xFFFF - f / 0xFFFF;
    assert s - f == 0xFFFF * m;
    assert t - Swap(f) == 0xFFFF * (0x100 * m - q + f / 0x100);
    SameResidue(Swap(f), t, 0x100 * m - q + f / 0x100);
    Folded(Swap(f), t);
  }

  lemma SameResidue(a: nat, b: nat, d: int)
    requires b - a == 0xFFFF * d
    ensures a % 0xFFFF == b % 0xFFFF
  {
  }

  /** The words of an even number of bytes. */
  function LeWords(bs: seq<byte>): seq<u16>
    requires |bs| % 2 == 0
  {
    if bs == [] then [] else [Le(bs[0], bs[1])] + LeWords(bs[2..])
  }

  function Total(ws: seq<u16>): nat {
    if ws == [] then 0 else ws[0] + Total(ws[1..])
  }

  lemma {:induction false} TotalOfWords(bs: seq<byte>)
    requires |bs| % 2 == 0
    ensures WordSum(bs) == Total(LeWords(bs))
  {
    if bs == [] {
    } else {
      TotalOfWords(bs[2..]);
      assert LeWords(bs)[1..] == LeWords(bs[2..]);
    }
  }

  lemma {:induction false} TotalJoins(a: seq<u16>, b: seq<u16>)
    ensures Total(a + b) == Total(a) + Total(b)
  {
    if a == [] {
      assert a + b == b;
    } else {
      assert (a + b)[1..] == a[1..] + b;
      TotalJoins(a[1..], b);
    }
  }

  /** One word taken out of the middle. */
  lemma TakenOut(l: seq<u16>, w: u16, r: seq<u16>)
    ensures Total(l + [w] + r) == w + Total(l + r)
    ensures multiset(l + [w] + r) == multiset([w]) + multiset(l + r)
  {
    TotalJoins(l + [w], r);
    TotalJoins(l, [w]);
    TotalJoins(l, r);
    assert Total([w]) == w + Total([]);
  }

  lemma {:induction false} TotalOfReordered(a: seq<u16>, b: seq<u16>)
    requires multiset(a) == multiset(b)
    ensures Total(a) == Total(b)
    decreases |a|
  {
    if a == [] {
      assert |multiset(b)| == 0;
    } else {
      hide Total;
      assert a[0] in multiset(b);
      var i :| 0 <= i < |b| && b[i] == a[0];
      var rest := b[..i] + b[i + 1..];
      Around(b, i);
      Around(a, 0);
      TakenOut(a[..0], a[0], a[1..]);
      TakenOut(b[..i], a[0], b[i + 1..]);
      SameRest(multiset([a[0]]), multiset(a[1..]), multiset(rest));
      TotalOfReordered(a[1..], rest);
    }
  }

  lemma Around(ws: seq<u16>, i: nat)
    requires i < |ws|
    ensures ws == ws[..i] + [ws[i]] + ws[i + 1..]
    ensures i == 0 ==> ws[1..] == ws[..0] + ws[1..]
  {
  }

  lemma SameRest(x: multiset<u16>, a: multiset<u16>, b: multiset<u16>)
    requires x + a == x + b
    ensures a == b
  {
    assert a == (x + a) - x && b == (x + b) - x;
  }

  /** Reordering the words does not change the checksum. */
  lemma ReorderedChecksum(a: seq<byte>, b: seq<byte>)
    requires |a| % 2 == 0 && |b| % 2 == 0 && multiset(LeWords(a)) == multiset(LeWords(b))
    ensures Checksum(a) == Checksum(b)
  {
    TotalOfWords(a);
    TotalOfWords(b);
    TotalOfReordered(LeWords(a), LeWords(b));
  }

  /** A last byte of its own counts as if a zero byte followed it (section 4.1 of RFC 1071). */
  lemma {:induction false} OddPadded(bs: seq<byte>)
    requires |bs| % 2 == 1
    ensures WordSum(bs + [0]) == WordSum(bs) && Checksum(bs + [0]) == Checksum(bs)
  {
    if |bs| == 1 {
      assert (bs + [0])[2..] == [];
    } else {
      assert (bs + [0])[2..] == bs[2..] + [0];
      OddPadded(bs[2..]);
    }
  }

  /** Words are taken as a little-endian host takes them. */
  lemma TwoBytes(lo: byte, hi: byte)
    ensures WordSum([lo, hi]) == lo + 256 * hi
  {
    assert [lo, hi][2..] == [];
  }
}
