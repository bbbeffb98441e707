/** The VLAN filter: the +v and -v options, their lists of numbers and ranges, and
    the samples that pass. */
module VlanFilter {
  import opened Xdr
  import opened SampleState
  import opened Decimal

  const MAX_VLAN: nat := 4096
  const NO_NUMBER: int := -19
  const OUT_OF_RANGE: int := -20

  // Numbers as strtol reads them with base 0.

  /** The value of a digit in any base up to 16; 16 for any other character. */
  function DigitOf(c: char): (d: nat)
    ensures d <= 16
    ensures IsDigit(c) <==> d < 10
  {
    if '0' <= c <= '9' then c as int - '0' as int
    else if 'a' <= c <= 'f' then c as int - 'a' as int + 10
    else if 'A' <= c <= 'F' then c as int - 'A' as int + 10
    else 16
  }

  /** How many digits of a base s starts with. */
  function Run(s: string, base: nat): (n: nat)
    requires base <= 16
    ensures n <= |s| && (n < |s| ==> DigitOf(s[n]) >= base)
    ensures forall i :: 0 <= i < n ==> DigitOf(s[i]) < base
  {
    if s == "" || DigitOf(s[0]) >= base then 0 else
      var n := Run(s[1..], base);
      assert forall i :: 1 <= i < n + 1 ==> s[i] == s[1..][i - 1];
      n + 1
  }

  function ValueIn(s: string, base: nat): nat {
    if s == "" then 0 else base * ValueIn(s[..|s| - 1], base) + DigitOf(s[|s| - 1])
  }

  /** The base of the number s starts with, and how many characters mark it. */
  function BaseOf(s: string): (nat, nat)
    requires s != "" && IsDigit(s[0])
    ensures BaseOf(s).1 <= |s| && BaseOf(s).0 <= 16
  {
    if |s| >= 3 && s[0] == '0' && (s[1] == 'x' || s[1] == 'X') && DigitOf(s[2]) < 16 then (16, 2)
    else if s[0] == '0' then (8, 0)
    else (10, 0)
  }

  const LONG_MAX: nat := 0x7FFF_FFFF_FFFF_FFFF

  datatype Number = Number(value: u32, len: nat)

  /** The number s starts with, clamped to a long and cut to 32 bits. */
  function Strtol(s: string): (n: Number)
    requires s != "" && IsDigit(s[0])
    ensures 0 < n.len <= |s|
  {
    var (base, mark) := BaseOf(s);
    var len := Run(s[mark..], base);
    assert len > 0 by {
      RunStarts(s);
    }
    var v := ValueIn(s[mark..mark + len], base);
    Number((if v > LONG_MAX then LONG_MAX else v) % 0x1_0000_0000, mark + len)
  }

  lemma RunStarts(s: string)
    requires s != "" && IsDigit(s[0])
    ensures Run(s[BaseOf(s).1..], BaseOf(s).0) > 0
  {
    var (base, mark) := BaseOf(s);
    assert s[mark..] != "" && DigitOf(s[mark..][0]) < base by {
      assert s[mark..][0] == s[mark];
    }
  }

  // Lists of numbers and ranges.

  /** One number, or a range. */
  datatype Item = Item(first: nat, last: nat)

  predicate Fits(i: Item) {
    i.first <= MAX_VLAN && i.last <= MAX_VLAN
  }

  /** A range whose end is below its start covers its first number only. */
  predicate Covers(i: Item, id: nat) {
    id == i.first || i.first < id <= i.last
  }

  datatype Step = Step(item: Item, rest: string) | Stop(status: int)

  function SkipSeparators(s: string): (t: string)
    ensures |t| <= |s|
  {
    if s != "" && (s[0] == ' ' || s[0] == ',') then SkipSeparators(s[1..]) else s
  }

  /** One number of a list, or the exit status. */
  function TakeNumber(s: string): (r: Step)
    ensures r.Step? ==> Fits(r.item) && |r.rest| < |s|
  {
    if s == "" || !IsDigit(s[0]) then Stop(NO_NUMBER) else
      var n := Strtol(s);
      if n.value > MAX_VLAN then Stop(OUT_OF_RANGE) else Step(Item(n.value, n.value), s[n.len..])
  }

  function TakeItem(s: string): (r: Step)
    ensures r.Step? ==> Fits(r.item) && |r.rest| < |s|
  {
    var a := TakeNumber(SkipSeparators(s));
    if a.Stop? || a.rest == "" || a.rest[0] != '-' then a else
      var b := TakeNumber(a.rest[1..]);
      if b.Stop? then b else Step(Item(a.item.first, b.item.first), b.rest)
  }

  datatype Items = Items(list: seq<Item>) | Bad(status: int)

  /** The items of a whole list. */
  function ParseList(s: string): (r: Items)
    ensures r.Items? ==> forall i :: i in r.list ==> Fits(i)
    decreases |s|
  {
    var one := TakeItem(s);
    if one.Stop? then Bad(one.status)
    else if one.rest == "" then Items([one.item])
    else
      var more := ParseList(one.rest);
      if more.Bad? then more else Items([one.item] + more.list)
  }

  /** A filter after one more item. */
  function Marked(f: seq<bool>, i: Item, flag: bool): (g: seq<bool>)
    ensures |g| == |f|
  {
    seq(|f|, id requires 0 <= id < |f| => if Covers(i, id) then flag else f[id])
  }

  function MarkedAll(f: seq<bool>, list: seq<Item>, flag: bool): (g: seq<bool>)
    ensures |g| == |f|
    decreases |list|
  {
    if list == [] then f else MarkedAll(Marked(f, list[0], flag), list[1..], flag)
  }

  // Options.

  datatype Option = Option(plus: bool, text: string)

  datatype Config = Config(got: bool, filter: seq<bool>)

  /** The filter that the first option starts from: an exclude list starts with
      every number below 4096 included. */
  function Started(c: Config, plus: bool): Config
    requires |c.filter| == MAX_VLAN + 1
  {
    if c.got || plus then c.(got := true)
    else Config(true, seq(|c.filter|, id requires 0 <= id < |c.filter| => id < MAX_VLAN || c.filter[id]))
  }

  datatype Result = Done(config: Config) | Ended(status: int)

  function Apply(c: Config, o: Option): (r: Result)
    requires |c.filter| == MAX_VLAN + 1
    ensures r.Done? ==> |r.config.filter| == MAX_VLAN + 1
  {
    var items := ParseList(o.text);
    if items.Bad? then Ended(items.status) else
      var d := Started(c, o.plus);
      Done(Config(true, MarkedAll(d.filter, items.list, o.plus)))
  }

  function ApplyAll(c: Config, os: seq<Option>): (r: Result)
    requires |c.filter| == MAX_VLAN + 1
    ensures r.Done? ==> |r.config.filter| == MAX_VLAN + 1
  {
    if os == [] then Done(c) else
      var r := ApplyAll(c, os[..|os| - 1]);
      if r.Ended? then r else Apply(r.config, os[|os| - 1])
  }

  class FilterConfig {
    var gotVlanFilter: bool
    const vlanFilter: array<bool>

    ghost function View(): Config
      reads this, vlanFilter
    {
      Config(gotVlanFilter, vlanFilter[..])
    }

    constructor ()
      ensures fresh(vlanFilter) && vlanFilter.Length == MAX_VLAN + 1
      ensures View() == Unfiltered()
    {
      gotVlanFilter := false;
      vlanFilter := new bool[MAX_VLAN + 1](_ => false);
      new;
      assert vlanFilter[..] == seq(MAX_VLAN + 1, _ => false);
    }

    method MarkItem(first: nat, last: nat, flag: bool)
      requires first < vlanFilter.Length && last < vlanFilter.Length
      modifies vlanFilter
      ensures vlanFilter[..] == Marked(old(vlanFilter[..]), Item(first, last), flag)
    {
      vlanFilter[first] := flag;
      if last > first {
        var i := first;
        while i <= last
          invariant first <= i <= last + 1
          invariant forall id :: 0 <= id < vlanFilter.Length ==>
                      vlanFilter[id] == if id == first || first <= id < i then flag else old(vlanFilter[id])
        {
          vlanFilter[i] := flag;
          i := i + 1;
        }
      }
    }

    /** Reads a list of numbers and ranges and marks each one as it is read. */
    method ParseVlanFilter(flag: bool, start: string) returns (sig: Signal)
      requires vlanFilter.Length == MAX_VLAN + 1
      modifies vlanFilter
      ensures var items := ParseList(start);
              if items.Bad? then sig == Exit(items.status)
              else sig == Fine && vlanFilter[..] == MarkedAll(old(vlanFilter[..]), items.list, flag)
    {
      hide Marked, Strtol;
      var p := start;
      ghost var was, all := vlanFilter[..], ParseList(start);
      while true
        invariant if ParseList(p).Bad? then all == ParseList(p) else
                    && all.Items?
                    && MarkedAll(vlanFilter[..], ParseList(p).list, flag) == MarkedAll(was, all.list, flag)
        decreases |p|
      {
        var s := SkipSeparators(p);
        if s == "" || !IsDigit(s[0]) {
          return Exit(NO_NUMBER);
        }
        var n := Strtol(s);
        var first, last := n.value, n.value;
        if first > MAX_VLAN {
          return Exit(OUT_OF_RANGE);
        }
        s := s[n.len..];
        if s != "" && s[0] == '-' {
          s := s[1..];
          if s == "" || !IsDigit(s[0]) {
            return Exit(NO_NUMBER);
          }
          n := Strtol(s);
          last := n.value;
          if last > MAX_VLAN {
            return Exit(OUT_OF_RANGE);
          }
          s := s[n.len..];
        }
        assert TakeItem(p) == Step(Item(first, last), s);
        MarkItem(first, last, flag);
        p := s;
        if p == "" {
          return Fine;
        }
      }
    }

    /** One +v or -v option. */
    method VlanOption(o: Option) returns (sig: Signal)
      requires vlanFilter.Length == MAX_VLAN + 1
      modifies this`gotVlanFilter, vlanFilter
      ensures var r := Apply(old(View()), o);
              if r.Ended? then sig == Exit(r.status) else sig == Fine && View() == r.config
    {
      hide ParseList, MarkedAll;
      if !o.plus && !gotVlanFilter {
        for i := 0 to MAX_VLAN
          invariant forall id :: 0 <= id <= MAX_VLAN ==> vlanFilter[id] == (id < i || old(vlanFilter[id]))
        {
          vlanFilter[i] := true;
        }
        assert vlanFilter[..] == Started(old(View()), o.plus).filter;
      }
      gotVlanFilter := true;
      sig := ParseVlanFilter(o.plus, o.text);
    }

    /** All the filter options of a command line, in order. */
    method ProcessOptions(os: seq<Option>) returns (sig: Signal)
      requires vlanFilter.Length == MAX_VLAN + 1
      modifies this`gotVlanFilter, vlanFilter
      ensures var r := ApplyAll(old(View()), os);
              if r.Ended? then sig == Exit(r.status) else sig == Fine && View() == r.config
    {
      hide Apply;
      var arg := 0;
      while arg < |os|
        invariant arg <= |os| && ApplyAll(old(View()), os[..arg]) == Done(View())
      {
        assert os[..arg + 1][..arg] == os[..arg];
        sig := VlanOption(os[arg]);
        if sig.IsFailure() {
          EndsThere(old(View()), os, arg + 1);
          return;
        }
        arg := arg + 1;
      }
      assert os[..arg] == os;
      sig := Fine;
    }

    /** Whether a sample passes the filter that the options os have set up. The numbers are
        those of the sample structure; the filter is indexed with them unchecked. */
    method SampleFilterOK(ghost os: seq<Option>, inVlan: u32, outVlan: u32) returns (sig: Signal, ok: bool)
      requires AllParse(os) && View() == Configured(os)
      ensures sig == if os != [] && (inVlan > MAX_VLAN || (!Included(os, inVlan) && outVlan > MAX_VLAN))
                     then Outside(BadIndex) else Fine
      ensures sig.Fine? ==> (ok <==> os == [] || Included(os, inVlan) || Included(os, outVlan))
    {
      hide ApplyAll, LastSays, AllItems;
      FilterMeans(os, if inVlan <= MAX_VLAN then inVlan else 0);
      FilterMeans(os, if outVlan <= MAX_VLAN then outVlan else 0);
      if !gotVlanFilter {
        return Fine, true;
      }
      if inVlan > MAX_VLAN {
        return Outside(BadIndex), false;
      }
      if vlanFilter[inVlan] {
        return Fine, true;
      }
      if outVlan > MAX_VLAN {
        return Outside(BadIndex), false;
      }
      sig, ok := Fine, vlanFilter[outVlan];
    }
  }

  /** Once an option ends the program no later one matters. */
  lemma {:induction false} EndsThere(c: Config, os: seq<Option>, n: nat)
    requires |c.filter| == MAX_VLAN + 1 && n <= |os| && ApplyAll(c, os[..n]).Ended?
    ensures ApplyAll(c, os) == ApplyAll(c, os[..n])
    decreases |os| - n
  {
    hide Apply;
    if n == |os| {
      assert os[..n] == os;
    } else {
      assert os[..n + 1][..n] == os[..n];
      EndsThere(c, os, n + 1);
    }
  }

  // What a filter means.

  /** An item with the polarity of its option. */
  datatype Signed = Signed(item: Item, plus: bool)

  function SignedList(list: seq<Item>, plus: bool): seq<Signed> {
    if list == [] then [] else SignedList(list[..|list| - 1], plus) + [Signed(list[|list| - 1], plus)]
  }

  /** All the items of the options, in order; none if a list is malformed. */
  function AllItems(os: seq<Option>): seq<Signed> {
    if os == [] then [] else
      var o := os[|os| - 1];
      var items := ParseList(o.text);
      AllItems(os[..|os| - 1]) + if items.Items? then SignedList(items.list, o.plus) else []
  }

  /** The polarity of the last item that covers a number, or the default. */
  function LastSays(items: seq<Signed>, id: nat, default: bool): bool {
    if items == [] then default
    else if Covers(items[|items| - 1].item, id) then items[|items| - 1].plus
    else LastSays(items[..|items| - 1], id, default)
  }

  /** The first option's sign decides what numbers outside every item get. */
  predicate Default(os: seq<Option>, id: nat) {
    os != [] && !os[0].plus && id < MAX_VLAN
  }

  lemma {:induction false} LastSaysJoin(a: seq<Signed>, b: seq<Signed>, id: nat, default: bool)
    ensures LastSays(a + b, id, default) == LastSays(b, id, LastSays(a, id, default))
  {
    if b == [] {
      assert a + b == a;
    } else {
      assert (a + b)[..|a + b| - 1] == a + b[..|b| - 1];
      LastSaysJoin(a, b[..|b| - 1], id, default);
    }
  }

  lemma {:induction false} MarkedAllStep(f: seq<bool>, list: seq<Item>, flag: bool)
    requires list != []
    ensures MarkedAll(f, list, flag) == Marked(MarkedAll(f, list[..|list| - 1], flag), list[|list| - 1], flag)
    decreases |list|
  {
    hide Marked;
    if |list| == 1 {
      assert list[1..] == [] && list[..0] == [];
    } else {
      assert list[1..][..|list| - 2] == list[..|list| - 1][1..];
      MarkedAllStep(Marked(f, list[0], flag), list[1..], flag);
    }
  }

  lemma {:induction false} MarkedMeans(f: seq<bool>, list: seq<Item>, flag: bool, id: nat)
    requires id < |f|
    ensures MarkedAll(f, list, flag)[id] == LastSays(SignedList(list, flag), id, f[id])
    decreases |list|
  {
    if list == [] {
    } else {
      var n := |list| - 1;
      MarkedAllStep(f, list, flag);
      MarkedMeans(f, list[..n], flag, id);
      hide MarkedAll;
      assert SignedList(list, flag)[..|SignedList(list, flag)| - 1] == SignedList(list[..n], flag);
    }
  }

  /** Every list of the options is well-formed. */
  predicate AllParse(os: seq<Option>) {
    forall i :: 0 <= i < |os| ==> ParseList(os[i].text).Items?
  }

  /** What the options start from. */
  function Unfiltered(): (c: Config)
    ensures !c.got && |c.filter| == MAX_VLAN + 1 && forall id :: 0 <= id <= MAX_VLAN ==> !c.filter[id]
  {
    Config(false, seq(MAX_VLAN + 1, _ => false))
  }

  /** Options are read to the end exactly when every list is well-formed. */
  lemma {:induction false} ReadToTheEnd(os: seq<Option>)
    ensures ApplyAll(Unfiltered(), os).Done? <==> AllParse(os)
  {
    hide ParseList, MarkedAll, Unfiltered;
    if os == [] {
    } else {
      var n := |os| - 1;
      ReadToTheEnd(os[..n]);
      assert os == os[..n] + [os[n]];
    }
  }

  /** The filter that the options set up. */
  function Configured(os: seq<Option>): (c: Config)
    requires AllParse(os)
    ensures |c.filter| == MAX_VLAN + 1
  {
    ReadToTheEnd(os);
    ApplyAll(Unfiltered(), os).config
  }

  /** A number is included if the last item that covers it says so, or else the default. */
  predicate Included(os: seq<Option>, id: nat) {
    LastSays(AllItems(os), id, Default(os, id))
  }

  /** After any options with well-formed lists a number is included exactly if the last
      item that covers it says so, or else the default does. */
  lemma {:induction false} FilterMeans(os: seq<Option>, id: nat)
    requires id <= MAX_VLAN && AllParse(os)
    ensures var c := Configured(os);
            c.got == (os != []) && c.filter[id] == Included(os, id)
  {
    hide ParseList, MarkedAll, LastSays, SignedList;
    if os == [] {
      assert LastSays([], id, false) == false by {
        NothingSays(id);
      }
    } else {
      var n := |os| - 1;
      ReadToTheEnd(os);
      ReadToTheEnd(os[..n]);
      FilterMeans(os[..n], id);
      var c := Configured(os[..n]);
      var o := os[n];
      var list := ParseList(o.text).list;
      var d := Started(c, o.plus);
      MarkedMeans(d.filter, list, o.plus, id);
      LastSaysJoin(AllItems(os[..n]), SignedList(list, o.plus), id, Default(os, id));
      assert n > 0 ==> os[..n][0] == os[0];
      if n == 0 {
        NothingSays(id);
      }
    }
  }

  lemma NothingSays(id: nat)
    ensures LastSays([], id, true) && !LastSays([], id, false)
  {
  }

  // Numerals as a user writes them.

  datatype Notation = Decimal | Octal | Hex(upper: bool)

  datatype Numeral = Numeral(n: nat, notation: Notation)

  const LOWER: string := "0123456789abcdef"
  const UPPER: string := "0123456789ABCDEF"

  function InBase(n: nat, base: nat, digits: string): (s: string)
    requires (base == 8 || base == 16) && base <= |digits|
    ensures s != ""
    decreases n
  {
    if n < base then [digits[n]] else
      Divided(n, base);
      InBase(n / base, base, digits) + [digits[n % base]]
  }

  lemma Divided(n: nat, base: nat)
    requires base == 8 || base == 16
    requires n >= base
    ensures 0 <= n / base < n && 0 <= n % base < base && base * (n / base) + n % base == n
  {
    if base == 8 {
      assert 8 * (n / 8) + n % 8 == n;
    } else {
      assert 16 * (n / 16) + n % 16 == n;
    }
  }

  function Text(m: Numeral): string
  {
    match m.notation
    case Decimal => Dec(m.n)
    case Octal => "0" + InBase(m.n, 8, LOWER)
    case Hex(upper) => if upper then "0X" + InBase(m.n, 16, UPPER) else "0x" + InBase(m.n, 16, LOWER)
  }

  /** The number that is looked at for n: a long that is cut to 32 bits. */
  function Cut32(n: nat): nat {
    if n < 0x8000_0000_0000_0000 then n % 0x1_0000_0000 else 0xFFFF_FFFF
  }

  function IdOf(m: Numeral): nat {
    Cut32(m.n)
  }

  predicate SeparatorChar(c: char) {
    c == ' ' || c == ','
  }

  predicate Separators(s: string) {
    forall c :: c in s ==> SeparatorChar(c)
  }

  /** What may follow a number. */
  predicate Follows(t: string) {
    t == "" || SeparatorChar(t[0]) || t[0] == '-'
  }

  lemma DigitsRead(from: string)
    requires from == LOWER || from == UPPER
    ensures forall d :: 0 <= d < 16 ==> DigitOf(from[d]) == d
  {
    forall d | 0 <= d < 16
      ensures DigitOf(from[d]) == d
    {
      assert from[d] as int
          == if d < 10 then '0' as int + d else (if from == LOWER then 'a' else 'A') as int + (d - 10);
    }
  }

  predicate InDigits(s: string, base: nat) {
    forall i :: 0 <= i < |s| ==> DigitOf(s[i]) < base
  }

  lemma {:induction false} InBaseRead(n: nat, base: nat, digits: string)
    requires (base == 8 || base == 16) && base <= |digits| && (forall d :: 0 <= d < base ==> DigitOf(digits[d]) == d)
    ensures InDigits(InBase(n, base, digits), base) && ValueIn(InBase(n, base, digits), base) == n
    decreases n
  {
    hide DigitOf;
    if n < base {
      OneMoreDigit("", digits[n], base);
      assert "" + [digits[n]] == [digits[n]];
    } else {
      Divided(n, base);
      InBaseRead(n / base, base, digits);
      OneMoreDigit(InBase(n / base, base, digits), digits[n % base], base);
    }
  }

  lemma OneMoreDigit(s: string, c: char, base: nat)
    requires InDigits(s, base) && DigitOf(c) < base
    ensures InDigits(s + [c], base)
    ensures ValueIn(s + [c], base) == base * ValueIn(s, base) + DigitOf(c)
    ensures ValueIn("", base) == 0
  {
    assert (s + [c])[..|s|] == s;
  }

  lemma {:induction false} RunOf(s: string, t: string, base: nat)
    requires base <= 16 && InDigits(s, base) && (t == "" || DigitOf(t[0]) >= base)
    ensures Run(s + t, base) == |s|
  {
    if s == "" {
      assert s + t == t;
    } else {
      assert (s + t)[1..] == s[1..] + t && (s + t)[0] == s[0];
      RunOf(s[1..], t, base);
    }
  }

  lemma {:induction false} DecimalValue(s: string)
    requires forall c :: c in s ==> IsDigit(c)
    ensures InDigits(s, 10) && ValueIn(s, 10) == Value(s)
  {
    if s == "" {
    } else {
      assert IsDigit(s[|s| - 1]);
      DecimalValue(s[..|s| - 1]);
    }
  }

  /** A run of digits behind `mark` characters, in front of what may follow a number. */
  lemma MarkedRead(s: string, mark: nat, base: nat, digits: string, t: string)
    requires s != "" && IsDigit(s[0]) && BaseOf(s) == (base, mark)
    requires s[mark..] == digits + t && InDigits(digits, base) && Follows(t)
    ensures Strtol(s) == Number(Cut32(ValueIn(digits, base)), mark + |digits|)
  {
    assert t == "" || DigitOf(t[0]) == 16;
    hide BaseOf, ValueIn, DigitOf, InDigits, Run, Follows;
    assert s[mark..mark + |digits|] == s[mark..][..|digits|] == digits;
    RunOf(digits, t, base);
  }

  lemma DecimalRead(n: nat, t: string)
    requires n > 0 && Follows(t)
    ensures Strtol(Dec(n) + t) == Number(Cut32(n), |Dec(n)|)
  {
    var s := Dec(n) + t;
    assert s[0] == Dec(n)[0] && Dec(n)[0] in Dec(n);
    assert BaseOf(s) == (10, 0);
    hide Dec, BaseOf, Strtol, ValueIn;
    DecimalValue(Dec(n));
    ValueOfDec(n);
    MarkedRead(s, 0, 10, Dec(n), t);
  }

  /** A digit zero alone is read in base 8. */
  lemma ZeroRead(t: string)
    requires Follows(t)
    ensures Strtol("0" + t) == Number(0, 1)
  {
    hide Strtol, ValueIn;
    OneMoreDigit("", '0', 8);
    assert "" + ['0'] == "0";
    ZeroBase("0", t);
    assert Cut32(0) == 0;
    hide *;
    MarkedRead("0" + t, 0, 8, "0", t);
  }

  lemma ZeroBase(digits: string, t: string)
    requires InDigits(digits, 8) && digits != "" && digits[0] == '0' && Follows(t)
    ensures var s := digits + t; IsDigit(s[0]) && BaseOf(s) == (8, 0) && s[0..] == digits + t
  {
    var s := digits + t;
    assert |s| > 1 ==> s[1] == if |digits| > 1 then digits[1] else t[0];
  }

  lemma OctalRead(n: nat, t: string)
    requires Follows(t)
    ensures Strtol("0" + InBase(n, 8, LOWER) + t) == Number(Cut32(n), 1 + |InBase(n, 8, LOWER)|)
  {
    hide BaseOf, Strtol, ValueIn, InBase, DigitOf, Cut32, Follows;
    DigitsRead(LOWER);
    InBaseRead(n, 8, LOWER);
    ZeroInFront(InBase(n, 8, LOWER));
    ZeroBase("0" + InBase(n, 8, LOWER), t);
    MarkedRead("0" + InBase(n, 8, LOWER) + t, 0, 8, "0" + InBase(n, 8, LOWER), t);
  }

  lemma {:induction false} ZeroInFront(s: string)
    requires InDigits(s, 8)
    ensures InDigits("0" + s, 8) && ValueIn("0" + s, 8) == ValueIn(s, 8)
  {
    if s == "" {
      assert ("0" + s)[..0] == "" && ValueIn("", 8) == 0;
    } else {
      assert ("0" + s)[..|s|] == "0" + s[..|s| - 1];
      ZeroInFront(s[..|s| - 1]);
    }
  }

  lemma HexBase(x: char, digits: string, t: string)
    requires (x == 'x' || x == 'X') && digits != "" && InDigits(digits, 16)
    ensures var s := ['0', x] + digits + t; IsDigit(s[0]) && BaseOf(s) == (16, 2) && s[2..] == digits + t
  {
    var s := ['0', x] + digits + t;
    assert s[0] == '0' && s[1] == x && s[2] == digits[0];
  }

  lemma HexRead(n: nat, x: char, from: string, t: string)
    requires (x == 'x' && from == LOWER) || (x == 'X' && from == UPPER)
    requires Follows(t)
    ensures Strtol(['0', x] + InBase(n, 16, from) + t) == Number(Cut32(n), 2 + |InBase(n, 16, from)|)
  {
    hide BaseOf, Strtol, ValueIn, InBase, DigitOf, Cut32, Follows;
    DigitsRead(from);
    InBaseRead(n, 16, from);
    HexBase(x, InBase(n, 16, from), t);
    MarkedRead(['0', x] + InBase(n, 16, from) + t, 2, 16, InBase(n, 16, from), t);
  }

  lemma NumeralStarts(m: Numeral)
    ensures Text(m) != "" && IsDigit(Text(m)[0])
  {
    assert m.notation.Decimal? ==> Text(m)[0] in Text(m);
  }

  /** A numeral of any size in any of the three notations. */
  lemma NumeralRead(m: Numeral, t: string)
    requires Follows(t)
    ensures Text(m) != "" && IsDigit(Text(m)[0])
    ensures Strtol(Text(m) + t) == Number(IdOf(m), |Text(m)|)
  {
    NumeralStarts(m);
    assert m == Numeral(0, Decimal) ==> Text(m) == "0";
    hide Strtol, InBase, Dec;
    match m.notation
    case Decimal => if m.n == 0 { ZeroRead(t); } else { DecimalRead(m.n, t); }
    case Octal => OctalRead(m.n, t);
    case Hex(upper) =>
      var from := if upper then UPPER else LOWER;
      HexRead(m.n, if upper then 'X' else 'x', from, t);
      assert Text(m) == ['0', if upper then 'X' else 'x'] + InBase(m.n, 16, from);
  }

  /** It is taken for its value, reduced to 32 bits, or refused if that is too large. */
  lemma NumberRead(m: Numeral, t: string)
    requires Follows(t)
    ensures TakeNumber(Text(m) + t) == if IdOf(m) <= 4096 then Step(Item(IdOf(m), IdOf(m)), t) else Stop(-20)
  {
    hide Strtol, Text, IdOf, BaseOf;
    NumeralRead(m, t);
    assert (Text(m) + t)[|Text(m)|..] == t;
  }

  // Lists of numerals.

  /** A number or range as a user writes it, behind separators. */
  datatype Entry = Entry(separators: string, first: Numeral, last: Numeral, range: bool)

  predicate EntryOk(e: Entry) {
    IdOf(e.first) <= 4096 && (e.range ==> IdOf(e.last) <= 4096) && Separators(e.separators)
  }

  /** Entries of which all but perhaps the first one have separators in front. */
  predicate EntriesOk(es: seq<Entry>) {
    && (forall i :: 0 <= i < |es| ==> EntryOk(es[i]))
    && (forall i :: 1 <= i < |es| ==> es[i].separators != "")
  }

  function RangeText(e: Entry): string {
    if e.range then "-" + Text(e.last) else ""
  }

  /** Entries in front of `more`. */
  function ListText(es: seq<Entry>, more: string): string {
    if es == [] then more else
      es[0].separators + (Text(es[0].first) + (RangeText(es[0]) + ListText(es[1..], more)))
  }

  function ItemOf(e: Entry): Item {
    Item(IdOf(e.first), IdOf(if e.range then e.last else e.first))
  }

  function ItemsOf(es: seq<Entry>): seq<Item> {
    if es == [] then [] else [ItemOf(es[0])] + ItemsOf(es[1..])
  }

  lemma {:induction false} SeparatorsSkipped(separators: string, t: string)
    requires Separators(separators)
    requires t == "" || !SeparatorChar(t[0])
    ensures SkipSeparators(separators + t) == t
  {
    if separators == "" {
      assert separators + t == t;
    } else {
      assert separators[0] in separators && forall c :: c in separators[1..] ==> c in separators;
      assert (separators + t)[1..] == separators[1..] + t;
      SeparatorsSkipped(separators[1..], t);
    }
  }

  lemma ItemRead(e: Entry, t: string)
    requires EntryOk(e) && (t == "" || SeparatorChar(t[0]))
    ensures TakeItem(e.separators + (Text(e.first) + (RangeText(e) + t))) == Step(ItemOf(e), t)
  {
    var u := RangeText(e) + t;
    NumeralStarts(e.first);
    hide TakeNumber, SkipSeparators, Text, Strtol, IdOf;
    assert (Text(e.first) + u)[0] == Text(e.first)[0];
    SeparatorsSkipped(e.separators, Text(e.first) + u);
    if e.range {
      assert u[1..] == Text(e.last) + t;
      NumberRead(e.last, t);
    } else {
      assert u == t;
    }
    NumberRead(e.first, u);
  }

  /** A list means what it says. */
  lemma {:induction false} ListRead(es: seq<Entry>)
    requires es != [] && EntriesOk(es)
    ensures ParseList(ListText(es, "")) == Items(ItemsOf(es))
  {
    hide TakeItem, EntryOk, Text, ItemOf;
    var t := ListText(es[1..], "");
    if |es| == 1 {
      ItemRead(es[0], "");
      assert es[1..] == [];
    } else {
      assert es[1..][0] == es[1] && t[0] == es[1].separators[0];
      SeparatorIn(es[1]);
      ItemRead(es[0], t);
      ListRead(es[1..]);
    }
  }

  lemma SeparatorIn(e: Entry)
    requires EntryOk(e) && e.separators != ""
    ensures SeparatorChar(e.separators[0])
  {
    assert e.separators[0] in e.separators;
  }

  // Lists that end the program.

  /** The first thing in a list that is no number or range up to 4096. */
  datatype Fault =
    | NoNumber(rest: string)
    | TooLarge(first: Numeral, rest: string)
    | NoEnd(first: Numeral, rest: string)
    | EndTooLarge(first: Numeral, last: Numeral, rest: string)

  predicate FaultOk(f: Fault) {
    match f
    case NoNumber(rest) => rest == "" || (!IsDigit(rest[0]) && !SeparatorChar(rest[0]))
    case TooLarge(first, rest) => IdOf(first) > 4096 && Follows(rest)
    case NoEnd(first, rest) => IdOf(first) <= 4096 && (rest == "" || !IsDigit(rest[0]))
    case EndTooLarge(first, last, rest) => IdOf(first) <= 4096 && IdOf(last) > 4096 && Follows(rest)
  }

  function FaultText(f: Fault): string {
    match f
    case NoNumber(rest) => rest
    case TooLarge(first, rest) => Text(first) + rest
    case NoEnd(first, rest) => Text(first) + ("-" + rest)
    case EndTooLarge(first, last, rest) => Text(first) + ("-" + (Text(last) + rest))
  }

  function FaultStatus(f: Fault): int {
    if f.NoNumber? || f.NoEnd? then -19 else -20
  }

  lemma FaultRead(separators: string, f: Fault)
    requires Separators(separators) && FaultOk(f)
    ensures TakeItem(separators + FaultText(f)) == Stop(FaultStatus(f))
  {
    hide TakeNumber, SkipSeparators, Text, Strtol, IdOf;
    var t := FaultText(f);
    match f {
      case NoNumber(rest) =>
        SeparatorsSkipped(separators, t);
        Refused(rest);
      case TooLarge(first, rest) =>
        FaultStarts(separators, first, rest);
        NumberRead(first, rest);
      case NoEnd(first, rest) =>
        FaultStarts(separators, first, "-" + rest);
        NumberRead(first, "-" + rest);
        assert ("-" + rest)[1..] == rest;
        Refused(rest);
      case EndTooLarge(first, last, rest) =>
        var u := Text(last) + rest;
        FaultStarts(separators, first, "-" + u);
        NumberRead(first, "-" + u);
        assert ("-" + u)[1..] == u;
        NumberRead(last, rest);
    }
  }

  lemma FaultStarts(separators: string, m: Numeral, t: string)
    requires Separators(separators)
    ensures SkipSeparators(separators + (Text(m) + t)) == Text(m) + t
  {
    NumeralStarts(m);
    assert (Text(m) + t)[0] == Text(m)[0];
    SeparatorsSkipped(separators, Text(m) + t);
  }

  lemma Refused(rest: string)
    requires rest == "" || !IsDigit(rest[0])
    ensures TakeNumber(rest) == Stop(-19)
  {
  }

  /** The first fault behind any entries ends the program with its status. */
  lemma {:induction false} ListRefused(es: seq<Entry>, separators: string, f: Fault)
    requires EntriesOk(es) && Separators(separators) && FaultOk(f) && (es != [] ==> separators != "")
    ensures ParseList(ListText(es, separators + FaultText(f))) == Bad(FaultStatus(f))
  {
    hide TakeItem, EntryOk, Text, ItemOf, FaultText, FaultOk, FaultStatus;
    if es == [] {
      FaultRead(separators, f);
    } else {
      var t := ListText(es[1..], separators + FaultText(f));
      if |es| == 1 {
        assert separators[0] in separators && t[0] == separators[0];
      } else {
        assert es[1..][0] == es[1] && t[0] == es[1].separators[0];
        SeparatorIn(es[1]);
      }
      ItemRead(es[0], t);
      ListRefused(es[1..], separators, f);
    }
  }

  /** A number above 32 bits that is taken for VLAN 1. */
  lemma TooLongForAnId()
    ensures ParseList(Text(Numeral(0x1_0000_0001, Decimal))) == Items([Item(1, 1)])
  {
    var m := Numeral(0x1_0000_0001, Decimal);
    assert IdOf(m) == 1;
    hide Text, ParseList, IdOf, Dec;
    var es := [Entry("", m, m, false)];
    ListRead(es);
    assert ListText(es, "") == "" + (Text(m) + ("" + "")) == Text(m);
    assert es[1..] == [] && ItemsOf(es) == [Item(1, 1)] + ItemsOf([]);
  }

  /** Behind a zero an 8 is no digit: what was read is the zero. */
  lemma ZeroTaken()
    ensures TakeNumber("08") == Step(Item(0, 0), "8")
  {
    var s := "08";
    ZeroBase("0", "");
    assert BaseOf(s) == (8, 0);
    OneMoreDigit("", '0', 8);
    assert "" + ['0'] == "0" && s[1..] == "8" && s[0..] == s && s[0..1] == "0";
    RunOf("0", "8", 8);
    assert "0" + "8" == s;
    assert Cut32(0) == 0;
    hide BaseOf, Run, ValueIn, DigitOf, InDigits;
  }

  lemma EightTaken()
    ensures TakeNumber("8") == Step(Item(8, 8), "")
  {
    var eight := Numeral(8, Decimal);
    assert Text(eight) == "8" && IdOf(eight) == 8 && "8" + "" == "8";
    hide TakeNumber, Text, IdOf;
    NumberRead(eight, "");
  }

  /** A leading zero makes the number octal; in front of an 8 it stands alone. */
  lemma EightBehindZero()
    ensures ParseList("08") == Items([Item(0, 0), Item(8, 8)])
  {
    ZeroTaken();
    EightTaken();
    hide TakeNumber;
    assert TakeItem("08") == Step(Item(0, 0), "8");
    assert TakeItem("8") == Step(Item(8, 8), "");
  }

  // Whole command lines.

  /** An option as a user writes it. */
  datatype Written = Written(plus: bool, entries: seq<Entry>)

  predicate WrittenOk(w: Written) {
    w.entries != [] && EntriesOk(w.entries)
  }

  predicate AllOk(ws: seq<Written>) {
    forall i :: 0 <= i < |ws| ==> WrittenOk(ws[i])
  }

  function OptionsOf(ws: seq<Written>): (os: seq<Option>)
    ensures |os| == |ws| && forall i :: 0 <= i < |ws| ==> os[i] == Option(ws[i].plus, ListText(ws[i].entries, ""))
  {
    seq(|ws|, i requires 0 <= i < |ws| => Option(ws[i].plus, ListText(ws[i].entries, "")))
  }

  /** What is written, entry by entry. */
  function AllWritten(ws: seq<Written>): seq<Signed> {
    if ws == [] then [] else
      AllWritten(ws[..|ws| - 1]) + SignedList(ItemsOf(ws[|ws| - 1].entries), ws[|ws| - 1].plus)
  }

  lemma {:induction false} ItemsAreWritten(ws: seq<Written>)
    requires AllOk(ws)
    ensures AllItems(OptionsOf(ws)) == AllWritten(ws)
    decreases |ws|
  {
    hide ParseList, ListText, SignedList, ItemsOf, WrittenOk;
    if ws == [] {
    } else {
      var n := |ws| - 1;
      ListIsWritten(ws[n]);
      assert OptionsOf(ws)[..n] == OptionsOf(ws[..n]);
      ItemsAreWritten(ws[..n]);
    }
  }

  lemma ListIsWritten(w: Written)
    requires WrittenOk(w)
    ensures ParseList(ListText(w.entries, "")) == Items(ItemsOf(w.entries))
  {
    ListRead(w.entries);
  }

  /** From the command line to the filter: options that list numbers and ranges are
      always read to the end, and a number is included exactly if the last entry that
      covers it stands in an include option, or if none does and the first option
      excludes. */
  lemma CommandLineMeans(ws: seq<Written>, id: nat)
    requires AllOk(ws) && id <= MAX_VLAN
    ensures AllParse(OptionsOf(ws))
    ensures var c := Configured(OptionsOf(ws));
            && c.got == (ws != [])
            && c.filter[id] == LastSays(AllWritten(ws), id, ws != [] && !ws[0].plus && id < MAX_VLAN)
  {
    hide ParseList, ListText, LastSays, AllItems, AllWritten, WrittenOk, Configured;
    forall i | 0 <= i < |ws|
      ensures ParseList(OptionsOf(ws)[i].text).Items?
    {
      ListIsWritten(ws[i]);
    }
    FilterMeans(OptionsOf(ws), id);
    ItemsAreWritten(ws);
  }
}
