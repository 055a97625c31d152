/** The printer of kernel CPU lists and the parser that reads them back. */
module CpuList {
  import opened Options

  // Decimal numbers.

  function Digit(d: nat): char
    requires d < 10
  {
    '0' + d as char
  }

  function Decimal(n: nat): string {
    if n < 10 then [Digit(n)] else Decimal(n / 10) + [Digit(n % 10)]
  }

  predicate IsDigit(c: char) {
    '0' <= c <= '9'
  }

  /** Digits, with single underscores allowed between them. */
  predicate IsNumber(s: string) {
    && s != "" && IsDigit(s[0]) && IsDigit(s[|s| - 1])
    && (forall i :: 0 <= i < |s| ==> IsDigit(s[i]) || s[i] == '_')
    && forall i :: 0 < i < |s| && s[i] == '_' ==> s[i - 1] != '_'
  }

  function Number(s: string): nat
    requires forall i :: 0 <= i < |s| ==> IsDigit(s[i]) || s[i] == '_'
  {
    if s == "" then 0
    else
      var front, c := Number(s[..|s| - 1]), s[|s| - 1];
      if c == '_' then front else assert IsDigit(s[|s| - 1]); front * 10 + (c as int - '0' as int)
  }

  predicate IsSpace(c: char) {
    9 <= c as int <= 13 || 28 <= c as int <= 32
  }

  function TrimLeft(s: string): string {
    if s != "" && IsSpace(s[0]) then TrimLeft(s[1..]) else s
  }

  function TrimRight(s: string): string {
    if s != "" && IsSpace(s[|s| - 1]) then TrimRight(s[..|s| - 1]) else s
  }

  /** `int(s)` for ASCII text: blanks around, one sign, digits with underscores between; `None` where
      it raises. */
  function Integer(s: string): Option<int> {
    var t := TrimRight(TrimLeft(s));
    var body := if t != "" && t[0] in "+-" then t[1..] else t;
    if !IsNumber(body) then None
    else
      var n: int := Number(body);
      Some(if t[0] == '-' then -n else n)
  }

  lemma {:induction false} DecimalDigits(n: nat)
    ensures Decimal(n) != "" && (forall c :: c in Decimal(n) ==> IsDigit(c)) && Number(Decimal(n)) == n
  {
    if n >= 10 {
      DecimalDigits(n / 10);
      assert Decimal(n)[..|Decimal(n)| - 1] == Decimal(n / 10);
    } else {
      assert Decimal(n)[..0] == "";
    }
  }

  lemma PlainText(s: string)
    requires s != "" && forall c :: c in s ==> IsDigit(c)
    ensures IsNumber(s) && TrimRight(TrimLeft(s)) == s && s[0] !in "+-"
  {
    forall i | 0 <= i < |s| ensures IsDigit(s[i]) && s[i] != '_' {
      assert s[i] in s;
    }
  }

  /** A printed number is read back. */
  lemma DecimalRoundTrip(n: nat)
    ensures Integer(Decimal(n)) == Some(n)
  {
    DecimalDigits(n);
    PlainText(Decimal(n));
  }

  lemma {:induction false} TrimmedPart(s: string, c: char)
    requires c !in s
    ensures c !in TrimLeft(s) && c !in TrimRight(s)
    decreases |s|
  {
    if s != "" && IsSpace(s[0]) {
      TrimmedPart(s[1..], c);
    }
    if s == "" || !IsSpace(s[|s| - 1]) {
    } else {
      TrimmedPart(s[..|s| - 1], c);
    }
  }

  /** Without a minus sign there is no negative number. */
  lemma NoMinus(s: string)
    requires '-' !in s
    ensures Integer(s).Some? ==> Integer(s).value >= 0
  {
    TrimmedPart(s, '-');
    TrimmedPart(TrimLeft(s), '-');
    var t := TrimRight(TrimLeft(s));
    assert t != "" ==> t[0] in t;
  }

  // `sorted(set(cpus))`.

  predicate Increasing(xs: seq<nat>) {
    forall i, j :: 0 <= i < j < |xs| ==> xs[i] < xs[j]
  }

  function Insert(x: nat, xs: seq<nat>): seq<nat> {
    if xs == [] || x < xs[0] then [x] + xs
    else if x == xs[0] then xs
    else [xs[0]] + Insert(x, xs[1..])
  }

  function SortedSet(xs: seq<nat>): seq<nat> {
    if xs == [] then [] else Insert(xs[0], SortedSet(xs[1..]))
  }

  lemma {:induction false} InsertFacts(x: nat, xs: seq<nat>)
    requires Increasing(xs)
    ensures Increasing(Insert(x, xs)) && forall y :: y in Insert(x, xs) <==> y == x || y in xs
  {
    if xs == [] || x <= xs[0] {
    } else {
      InsertFacts(x, xs[1..]);
      var rest := Insert(x, xs[1..]);
      forall j | 0 <= j < |rest| ensures xs[0] < rest[j] {
        assert rest[j] in rest;
      }
      assert xs == [xs[0]] + xs[1..];
    }
  }

  lemma {:induction false} SortedSetFacts(xs: seq<nat>)
    ensures Increasing(SortedSet(xs)) && forall y :: y in SortedSet(xs) <==> y in xs
  {
    if xs == [] {
    } else {
      SortedSetFacts(xs[1..]);
      InsertFacts(xs[0], SortedSet(xs[1..]));
      assert xs == [xs[0]] + xs[1..];
    }
  }

  lemma FirstIn(xs: seq<nat>)
    requires xs != []
    ensures xs[0] in xs
  {
  }

  lemma {:induction false} IncreasingUnique(a: seq<nat>, b: seq<nat>)
    requires Increasing(a) && Increasing(b) && forall y :: y in a <==> y in b
    ensures a == b
  {
    if a == [] || b == [] {
      if b != [] {
        FirstIn(b);
        assert false;
      }
      if a != [] {
        FirstIn(a);
        assert false;
      }
    } else {
      assert a[0] in b && b[0] in a;
      forall y ensures y in a[1..] <==> y in b[1..] {
        assert y in a[1..] <==> y in a && y != a[0];
        assert y in b[1..] <==> y in b && y != b[0];
      }
      IncreasingUnique(a[1..], b[1..]);
      assert a == [a[0]] + a[1..] && b == [b[0]] + b[1..];
    }
  }

  // Ranges and their text.

  datatype Range = Range(lo: nat, hi: nat)

  function Expand(r: Range): (xs: seq<nat>)
    ensures |xs| == if r.lo <= r.hi then r.hi - r.lo + 1 else 0
    ensures forall i :: 0 <= i < |xs| ==> xs[i] == r.lo + i
  {
    seq(if r.lo <= r.hi then r.hi - r.lo + 1 else 0, i requires 0 <= i => r.lo + i)
  }

  function ExpandAll(rs: seq<Range>): seq<nat> {
    if rs == [] then [] else ExpandAll(rs[..|rs| - 1]) + Expand(rs[|rs| - 1])
  }

  predicate Gap(rs: seq<Range>, i: nat)
    requires i + 1 < |rs|
  {
    rs[i].hi + 1 < rs[i + 1].lo
  }

  /** Ranges in order with a gap of at least one number between neighbours: none can be merged. */
  predicate Maximal(rs: seq<Range>) {
    && (forall i :: 0 <= i < |rs| ==> rs[i].lo <= rs[i].hi)
    && forall i: nat :: i + 1 < |rs| ==> Gap(rs, i)
  }

  function Text(r: Range): string {
    if r.lo != r.hi then Decimal(r.lo) + "-" + Decimal(r.hi) else Decimal(r.lo)
  }

  function Texts(rs: seq<Range>): (ts: seq<string>)
    ensures |ts| == |rs| && forall i :: 0 <= i < |rs| ==> ts[i] == Text(rs[i])
  {
    seq(|rs|, i requires 0 <= i < |rs| => Text(rs[i]))
  }

  function Join(parts: seq<string>): string {
    if parts == [] then ""
    else if |parts| == 1 then parts[0]
    else parts[0] + "," + Join(parts[1..])
  }

  // Splitting and reading.

  /** `str.split(',')`: always at least one part. */
  function Split(s: string): (parts: seq<string>)
    ensures parts != []
  {
    if s == "" then [""]
    else if s[0] == ',' then [""] + Split(s[1..])
    else var rest := Split(s[1..]); [[s[0]] + rest[0]] + rest[1..]
  }

  function DashAt(s: string): (k: nat)
    ensures k <= |s| && (forall i :: 0 <= i < k ==> s[i] != '-') && (k < |s| ==> s[k] == '-')
  {
    if s == "" || s[0] == '-' then 0 else 1 + DashAt(s[1..])
  }

  /** `list(range(a, b + 1))`. */
  function UpTo(a: int, b: int): seq<int> {
    seq(if a <= b then b - a + 1 else 0, i requires 0 <= i => a + i)
  }

  /** `partition('-')` and `range(int(a), int(b or a) + 1)`; `None` where `int` raises. */
  function ReadPart(part: string): Option<seq<int>> {
    var k := DashAt(part);
    var a, b := part[..k], if k < |part| then part[k + 1..] else "";
    var first, last := Integer(a), Integer(if b == "" then a else b);
    if first.Some? && last.Some? then Some(UpTo(first.value, last.value)) else None
  }

  /** No number read is negative: the first dash ends the lower bound. */
  lemma NothingNegative(part: string)
    ensures ReadPart(part).Some? ==> forall x :: x in ReadPart(part).value ==> x >= 0
  {
    NoMinus(part[..DashAt(part)]);
  }

  function ReadParts(parts: seq<string>): Option<seq<int>> {
    if parts == [] then Some([])
    else
      var front, part := ReadParts(parts[..|parts| - 1]), parts[|parts| - 1];
      if part == "" || front.None? then front
      else if ReadPart(part).None? then None
      else Some(front.value + ReadPart(part).value)
  }

  function Parsed(spec: string): Option<seq<int>> {
    ReadParts(Split(spec))
  }

  lemma ReadNext(parts: seq<string>, n: nat)
    requires n < |parts|
    ensures ReadParts(parts[..n + 1])
         == var front, part := ReadParts(parts[..n]), parts[n];
            if part == "" || front.None? then front
            else if ReadPart(part).None? then None else Some(front.value + ReadPart(part).value)
  {
    assert parts[..n + 1][..n] == parts[..n];
  }

  lemma ReadSnoc(parts: seq<string>, part: string)
    requires part != "" && ReadParts(parts).Some? && ReadPart(part).Some?
    ensures ReadParts(parts + [part]) == Some(ReadParts(parts).value + ReadPart(part).value)
  {
    assert (parts + [part])[..|parts|] == parts;
  }

  /** One part: its bounds, the second one defaulting to the first. */
  method ReadBounds(part: string) returns (cpus: Option<seq<int>>)
    ensures cpus == ReadPart(part)
  {
    var k := DashAt(part);
    var a, b := part[..k], if k < |part| then part[k + 1..] else "";
    if b == "" {
      b := a;
    }
    var first, last := Integer(a), Integer(b);
    return if first.None? || last.None? then None else Some(UpTo(first.value, last.value));
  }

  method OnlineCpus(spec: string) returns (cpus: Option<seq<int>>)
    ensures cpus == Parsed(spec)
  {
    var parts := Split(spec);
    var read: seq<int> := [];
    for n := 0 to |parts|
      invariant ReadParts(parts[..n]) == Some(read)
    {
      ReadNext(parts, n);
      var part := parts[n];
      if part != "" {
        var more := ReadBounds(part);
        if more.None? {
          FailedPrefix(parts, n + 1);
          return None;
        }
        read := read + more.value;
      }
    }
    assert parts[..|parts|] == parts;
    return Some(read);
  }

  lemma {:induction false} FailedPrefix(parts: seq<string>, n: nat)
    requires n <= |parts| && ReadParts(parts[..n]) == None
    ensures ReadParts(parts) == None
    decreases |parts| - n
  {
    if n == |parts| {
      assert parts[..n] == parts;
    } else {
      assert parts[..n + 1][..n] == parts[..n];
      FailedPrefix(parts, n + 1);
    }
  }

  // The printer.

  /** The ranges that the printer collects, one number at a time. */
  function Ranges(xs: seq<nat>): seq<Range> {
    if xs == [] then []
    else
      var front, cpu := Ranges(xs[..|xs| - 1]), xs[|xs| - 1];
      if front != [] && front[|front| - 1].hi + 1 == cpu
      then front[..|front| - 1] + [Range(front[|front| - 1].lo, cpu)]
      else front + [Range(cpu, cpu)]
  }

  function Formatted(cpus: seq<nat>): string {
    Join(Texts(Ranges(SortedSet(cpus))))
  }

  lemma RangesGrow(xs: seq<nat>, n: nat, rs: seq<Range>, start: nat, prev: nat)
    requires n < |xs| && rs + [Range(start, prev)] == Ranges(xs[..n])
    ensures Ranges(xs[..n + 1])
         == if xs[n] == prev + 1 then rs + [Range(start, xs[n])] else rs + [Range(start, prev)] + [Range(xs[n], xs[n])]
  {
    assert xs[..n + 1][..n] == xs[..n];
    assert (rs + [Range(start, prev)])[..|rs|] == rs;
  }

  lemma TextsMore(rs: seq<Range>, r: Range)
    ensures Texts(rs + [r]) == Texts(rs) + [Text(r)]
  {
  }

  method FormatCpuList(cpus: seq<nat>) returns (text: string)
    ensures text == Formatted(cpus)
  {
    var xs := SortedSet(cpus);
    if xs == [] {
      return "";
    }
    var out: seq<string> := [];
    ghost var rs := [];
    var start, prev := xs[0], xs[0];
    assert Ranges(xs[..1]) == [] + [Range(start, prev)];
    for n := 1 to |xs|
      invariant out == Texts(rs) && rs + [Range(start, prev)] == Ranges(xs[..n])
    {
      var cpu := xs[n];
      RangesGrow(xs, n, rs, start, prev);
      if cpu == prev + 1 {
        prev := cpu;
      } else {
        TextsMore(rs, Range(start, prev));
        out := out + [if start != prev then Decimal(start) + "-" + Decimal(prev) else Decimal(start)];
        rs := rs + [Range(start, prev)];
        start, prev := cpu, cpu;
      }
    }
    TextsMore(rs, Range(start, prev));
    out := out + [if start != prev then Decimal(start) + "-" + Decimal(prev) else Decimal(start)];
    assert xs[..|xs|] == xs;
    text := Join(out);
  }

  lemma ExtendLast(rs: seq<Range>, cpu: nat)
    requires rs != [] && Maximal(rs) && rs[|rs| - 1].hi + 1 == cpu
    ensures Maximal(rs[..|rs| - 1] + [Range(rs[|rs| - 1].lo, cpu)])
  {
    var longer := rs[..|rs| - 1] + [Range(rs[|rs| - 1].lo, cpu)];
    forall i: nat | i + 1 < |longer| ensures Gap(longer, i) {
      assert Gap(rs, i);
    }
  }

  lemma ExpandLast(front: seq<Range>, lo: nat, cpu: nat)
    requires lo < cpu
    ensures ExpandAll(front + [Range(lo, cpu)]) == ExpandAll(front + [Range(lo, cpu - 1)]) + [cpu]
  {
    var a, b := front + [Range(lo, cpu)], front + [Range(lo, cpu - 1)];
    assert a[..|front|] == front && b[..|front|] == front;
    assert Expand(Range(lo, cpu)) == Expand(Range(lo, cpu - 1)) + [cpu];
    assert ExpandAll(a) == ExpandAll(front) + Expand(Range(lo, cpu));
    assert ExpandAll(b) == ExpandAll(front) + Expand(Range(lo, cpu - 1));
  }

  lemma OpenRange(rs: seq<Range>, cpu: nat)
    requires Maximal(rs) && (rs != [] ==> rs[|rs| - 1].hi + 1 < cpu)
    ensures Maximal(rs + [Range(cpu, cpu)])
  {
    var more := rs + [Range(cpu, cpu)];
    forall i: nat | i + 1 < |more| ensures Gap(more, i) {
      if i + 1 < |rs| {
        assert Gap(rs, i);
      }
    }
  }

  lemma ExpandOpen(rs: seq<Range>, cpu: nat)
    ensures ExpandAll(rs + [Range(cpu, cpu)]) == ExpandAll(rs) + [cpu]
  {
    assert (rs + [Range(cpu, cpu)])[..|rs|] == rs && Expand(Range(cpu, cpu)) == [cpu];
  }

  lemma IncreasingFront(xs: seq<nat>)
    requires Increasing(xs) && xs != []
    ensures Increasing(xs[..|xs| - 1]) && xs == xs[..|xs| - 1] + [xs[|xs| - 1]]
    ensures |xs| > 1 ==> xs[|xs| - 2] < xs[|xs| - 1]
  {
  }

  /** The printed ranges cover exactly the set and cannot be merged. */
  lemma {:induction false} RangesFacts(xs: seq<nat>)
    requires Increasing(xs)
    ensures Maximal(Ranges(xs)) && ExpandAll(Ranges(xs)) == xs
    ensures xs != [] ==> Ranges(xs) != [] && Ranges(xs)[|Ranges(xs)| - 1].hi == xs[|xs| - 1]
  {
    if xs == [] {
    } else {
      var before, cpu := xs[..|xs| - 1], xs[|xs| - 1];
      IncreasingFront(xs);
      RangesFacts(before);
      RangesNext(Ranges(before), before, cpu);
    }
  }

  lemma RangesNext(front: seq<Range>, before: seq<nat>, cpu: nat)
    requires Maximal(front) && ExpandAll(front) == before
    requires before != [] ==> front != [] && front[|front| - 1].hi == before[|before| - 1] < cpu
    ensures var rs := if front != [] && front[|front| - 1].hi + 1 == cpu
                      then front[..|front| - 1] + [Range(front[|front| - 1].lo, cpu)] else front + [Range(cpu, cpu)];
      Maximal(rs) && ExpandAll(rs) == before + [cpu]
  {
    if front != [] && front[|front| - 1].hi + 1 == cpu {
      var last := front[|front| - 1];
      ExtendLast(front, cpu);
      ExpandLast(front[..|front| - 1], last.lo, cpu);
      assert front[..|front| - 1] + [last] == front && last == Range(last.lo, cpu - 1);
    } else {
      ExpandsSomething(front);
      OpenRange(front, cpu);
      ExpandOpen(front, cpu);
    }
  }

  lemma ExpandsSomething(rs: seq<Range>)
    requires Maximal(rs)
    ensures rs != [] ==> ExpandAll(rs) != []
  {
  }

  // Round trip.

  lemma {:induction false} SplitPlain(s: string)
    requires ',' !in s
    ensures Split(s) == [s]
  {
    if s == "" {
    } else {
      SplitPlain(s[1..]);
      assert [s[0]] + s[1..] == s;
    }
  }

  lemma {:induction false} SplitComma(s: string, t: string)
    requires ',' !in s
    ensures Split(s + "," + t) == [s] + Split(t)
  {
    var whole := s + "," + t;
    if s == "" {
      assert whole[1..] == t;
    } else {
      assert whole[1..] == s[1..] + "," + t;
      SplitComma(s[1..], t);
      assert [s[0]] + s[1..] == s;
    }
  }

  lemma {:induction false} SplitJoin(parts: seq<string>)
    requires parts != [] && forall i :: 0 <= i < |parts| ==> ',' !in parts[i]
    ensures Split(Join(parts)) == parts
  {
    if |parts| == 1 {
      SplitPlain(parts[0]);
    } else {
      SplitComma(parts[0], Join(parts[1..]));
      SplitJoin(parts[1..]);
    }
  }

  lemma {:induction false} DashFirst(s: string, t: string)
    requires '-' !in s
    ensures DashAt(s) == |s| && DashAt(s + "-" + t) == |s|
  {
    if s != "" {
      DashFirst(s[1..], t);
      assert (s + "-" + t)[1..] == s[1..] + "-" + t;
    } else {
      assert s + "-" + t == "-" + t;
    }
  }

  lemma OnePart(a: string)
    requires '-' !in a && Integer(a).Some?
    ensures ReadPart(a) == Some(UpTo(Integer(a).value, Integer(a).value))
  {
    DashFirst(a, "");
    assert a[..|a|] == a;
  }

  lemma TwoParts(a: string, b: string)
    requires '-' !in a && b != "" && Integer(a).Some? && Integer(b).Some?
    ensures ReadPart(a + "-" + b) == Some(UpTo(Integer(a).value, Integer(b).value))
  {
    DashFirst(a, b);
    assert (a + "-" + b)[..|a|] == a && (a + "-" + b)[|a| + 1..] == b;
  }

  lemma PlainDecimal(n: nat)
    ensures Decimal(n) != "" && '-' !in Decimal(n) && ',' !in Decimal(n)
  {
    DecimalDigits(n);
  }

  /** A printed range is read back whole. */
  lemma TextRoundTrip(r: Range)
    requires r.lo <= r.hi
    ensures Text(r) != "" && ',' !in Text(r) && ReadPart(Text(r)) == Some(Expand(r))
  {
    PlainDecimal(r.lo);
    PlainDecimal(r.hi);
    DecimalRoundTrip(r.lo);
    DecimalRoundTrip(r.hi);
    assert UpTo(r.lo, r.hi) == Expand(r);
    if r.lo != r.hi {
      TwoParts(Decimal(r.lo), Decimal(r.hi));
    } else {
      OnePart(Decimal(r.lo));
    }
  }

  lemma ReadOneMore(front: seq<Range>, last: Range)
    requires ReadParts(Texts(front)) == Some(ExpandAll(front)) && last.lo <= last.hi
    ensures ReadParts(Texts(front + [last])) == Some(ExpandAll(front + [last]))
  {
    assert (front + [last])[..|front|] == front;
    TextRoundTrip(last);
    TextsMore(front, last);
    ReadSnoc(Texts(front), Text(last));
  }

  lemma {:induction false} ReadTexts(rs: seq<Range>)
    requires forall r :: r in rs ==> r.lo <= r.hi
    ensures ReadParts(Texts(rs)) == Some(ExpandAll(rs))
  {
    if rs == [] {
    } else {
      var front, last := rs[..|rs| - 1], rs[|rs| - 1];
      assert rs == front + [last];
      ReadTexts(front);
      ReadOneMore(front, last);
    }
  }

  /** Reading back what was printed gives the sorted numbers of the set, the empty set included. */
  lemma RoundTrip(cpus: seq<nat>)
    ensures Parsed(Formatted(cpus)) == Some(SortedSet(cpus))
  {
    var rs := Ranges(SortedSet(cpus));
    SortedSetFacts(cpus);
    RangesFacts(SortedSet(cpus));
    ReadTexts(rs);
    if rs == [] {
      assert Split("") == [""] && ReadParts([""]) == Some([]) by {
        assert [""][..0] == [];
      }
    } else {
      forall i | 0 <= i < |rs| ensures ',' !in Texts(rs)[i] {
        TextRoundTrip(rs[i]);
      }
      SplitJoin(Texts(rs));
    }
  }

  /** Two lists print alike exactly when they hold the same numbers. */
  lemma SameTextSameSet(a: seq<nat>, b: seq<nat>)
    ensures Formatted(a) == Formatted(b) <==> forall cpu :: cpu in a <==> cpu in b
  {
    SortedSetFacts(a);
    SortedSetFacts(b);
    RoundTrip(a);
    RoundTrip(b);
    if forall cpu :: cpu in a <==> cpu in b {
      IncreasingUnique(SortedSet(a), SortedSet(b));
    }
  }

  // The text itself.

  /** Decimal text as printed: one digit per place, the last one on its own, and no leading zero. */
  lemma {:induction false} DecimalPlaces(n: nat)
    ensures n < 10 ==> Decimal(n) == ["0123456789"[n]]
    ensures n >= 10 ==> Decimal(n) == Decimal(n / 10) + ["0123456789"[n % 10]]
    ensures n > 0 ==> Decimal(n)[0] != '0'
  {
    assert forall d :: 0 <= d < 10 ==> Digit(d) == "0123456789"[d];
    if n < 10 {
    } else {
      DecimalPlaces(n / 10);
      DecimalDigits(n / 10);
    }
  }

  /** Without a dash there is one number, and with one there are several. */
  lemma DashMeansSeveral(r: Range)
    requires r.lo <= r.hi
    ensures '-' in Text(r) <==> |Expand(r)| > 1
  {
    PlainDecimal(r.lo);
    PlainDecimal(r.hi);
    if r.lo != r.hi {
      assert Text(r)[|Decimal(r.lo)|] == '-';
    }
  }

  /** Each part of the printed list is read as the numbers of one range, and it holds a dash exactly
      when these are several. */
  lemma PartsExact(cpus: seq<nat>)
    requires cpus != []
    ensures var parts, rs := Split(Formatted(cpus)), Ranges(SortedSet(cpus));
      && |parts| == |rs|
      && forall i :: 0 <= i < |parts| ==>
           ReadPart(parts[i]) == Some(Expand(rs[i])) && ('-' in parts[i] <==> |Expand(rs[i])| > 1)
  {
    var xs := SortedSet(cpus);
    var rs := Ranges(xs);
    SortedSetFacts(cpus);
    assert cpus[0] in xs;
    RangesFacts(xs);
    forall i | 0 <= i < |rs|
      ensures ',' !in Texts(rs)[i]
      ensures ReadPart(Texts(rs)[i]) == Some(Expand(rs[i])) && ('-' in Texts(rs)[i] <==> |Expand(rs[i])| > 1)
    {
      TextRoundTrip(rs[i]);
      DashMeansSeveral(rs[i]);
    }
    SplitJoin(Texts(rs));
  }

  lemma TestedRanges()
    ensures SortedSet([0, 1, 2, 8]) == [0, 1, 2, 8] && SortedSet([3]) == [3]
    ensures Ranges([0, 1, 2]) == [Range(0, 2)] && Ranges([3]) == [Range(3, 3)]
  {
    assert SortedSet([2, 8]) == [2, 8] && SortedSet([1, 2, 8]) == [1, 2, 8];
    assert [0, 1, 2][..2] == [0, 1] && [0, 1][..1] == [0] && [0][..0] == [] && [3][..0] == [];
    assert Ranges([0]) == [Range(0, 0)] && Ranges([0, 1]) == [Range(0, 1)];
  }

  lemma TestedTexts()
    ensures Text(Range(0, 2)) == "0-2" && Text(Range(8, 8)) == "8" && Text(Range(3, 3)) == "3"
  {
    assert Decimal(0) == "0" && Decimal(2) == "2" && Decimal(3) == "3" && Decimal(8) == "8";
    assert "0" + "-" + "2" == "0-2";
  }

  /** The lists of the repository's own test, and the empty one. */
  lemma TestedLists()
    ensures Formatted([0, 1, 2, 8]) == "0-2,8" && Formatted([3]) == "3" && Formatted([]) == ""
  {
    TestedPair();
    TestedOne();
    assert Texts([]) == [];
  }

  lemma TestedPair()
    ensures Formatted([0, 1, 2, 8]) == "0-2,8"
  {
    PairRanges();
    TwoTexts(Range(0, 2), Range(8, 8));
    TestedTexts();
  }

  lemma PairRanges()
    ensures Ranges(SortedSet([0, 1, 2, 8])) == [Range(0, 2), Range(8, 8)]
  {
    TestedRanges();
    assert [0, 1, 2, 8][..3] == [0, 1, 2] && [0, 1, 2, 8][..4] == [0, 1, 2, 8];
    assert [] + [Range(0, 2)] == [Range(0, 2)];
    RangesGrow([0, 1, 2, 8], 3, [], 0, 2);
  }

  lemma TestedOne()
    ensures Formatted([3]) == "3"
  {
    TestedRanges();
    TestedTexts();
    assert Texts([Range(3, 3)]) == [Text(Range(3, 3))];
  }

  lemma TwoTexts(r: Range, s: Range)
    ensures Join(Texts([r, s])) == Text(r) + "," + Text(s)
  {
    assert Texts([r, s])[1..] == [Text(s)];
  }

  // Reading, part by part.

  /** A list is read part after part in the order of the text, and nothing is a part's worth of an
      empty one. */
  lemma ReadsPartByPart(a: string, rest: string)
    requires ',' !in a
    ensures Parsed("") == Some([]) && (a != "" ==> Parsed(a) == ReadPart(a))
    ensures Parsed(a + "," + rest) == Both(Parsed(a), Parsed(rest))
  {
    SplitPlain("");
    SplitPlain(a);
    SplitComma(a, rest);
    assert [""][..0] == [] && [a][..0] == [];
    ReadPartsAppend([a], Split(rest));
    if a != "" && ReadPart(a).Some? {
      assert [] + ReadPart(a).value == ReadPart(a).value;
    }
  }

  function ReadMore(front: Option<seq<int>>, part: string): Option<seq<int>> {
    if part == "" || front.None? then front
    else if ReadPart(part).None? then None else Some(front.value + ReadPart(part).value)
  }

  function Both(a: Option<seq<int>>, b: Option<seq<int>>): Option<seq<int>> {
    if a.Some? && b.Some? then Some(a.value + b.value) else None
  }

  lemma BothMore(a: Option<seq<int>>, b: Option<seq<int>>, part: string)
    ensures Both(a, ReadMore(b, part)) == ReadMore(Both(a, b), part)
  {
    if a.Some? && b.Some? && part != "" && ReadPart(part).Some? {
      var more := ReadPart(part).value;
      assert a.value + (b.value + more) == (a.value + b.value) + more;
    }
  }

  lemma ReadLast(parts: seq<string>)
    requires parts != []
    ensures ReadParts(parts) == ReadMore(ReadParts(parts[..|parts| - 1]), parts[|parts| - 1])
  {
  }

  lemma {:induction false} ReadPartsAppend(front: seq<string>, back: seq<string>)
    ensures ReadParts(front + back) == Both(ReadParts(front), ReadParts(back))
    decreases |back|
  {
    if back == [] {
      assert front + back == front;
      assert ReadParts(front).Some? ==> ReadParts(front).value + [] == ReadParts(front).value;
    } else {
      var all, init := front + back, back[..|back| - 1];
      assert all[..|all| - 1] == front + init;
      ReadLast(all);
      ReadLast(back);
      ReadPartsAppend(front, init);
      BothMore(ReadParts(front), ReadParts(init), back[|back| - 1]);
    }
  }

  // What `int` takes.

  lemma DigitsTrimmed(s: string)
    requires s != "" && IsDigit(s[0]) && IsDigit(s[|s| - 1])
    ensures TrimLeft(s) == s && TrimRight(s) == s && s[0] !in "+-"
  {
  }

  /** A plus, a minus, blanks around and an underscore between digits are taken as `int` takes them. */
  lemma ReadsLikeInt(n: nat, m: nat)
    ensures Integer("+" + Decimal(n)) == Some(n) && Integer("-" + Decimal(n)) == Some(0 - n)
    ensures Integer(" " + Decimal(n) + "\n") == Some(n)
    ensures Integer(Decimal(n) + "_" + Decimal(m)) == Integer(Decimal(n) + Decimal(m)) != None
  {
    SignTaken(n);
    BlanksTaken(n);
    UnderscoreTaken(n, m);
  }

  lemma DecimalIsNumber(n: nat)
    ensures var d := Decimal(n);
      d != "" && IsNumber(d) && Number(d) == n && IsDigit(d[0]) && IsDigit(d[|d| - 1]) && d[0] !in "+-"
    ensures forall i :: 0 <= i < |Decimal(n)| ==> IsDigit(Decimal(n)[i])
  {
    DecimalDigits(n);
    PlainText(Decimal(n));
  }

  lemma SignTaken(n: nat)
    ensures Integer("+" + Decimal(n)) == Some(n) && Integer("-" + Decimal(n)) == Some(0 - n)
  {
    var d := Decimal(n);
    DecimalIsNumber(n);
    assert ("+" + d)[1..] == d && ("-" + d)[1..] == d;
    assert TrimLeft("+" + d) == "+" + d && TrimRight("+" + d) == "+" + d;
    assert TrimLeft("-" + d) == "-" + d && TrimRight("-" + d) == "-" + d;
  }

  lemma BlanksTaken(n: nat)
    ensures Integer(" " + Decimal(n) + "\n") == Some(n)
  {
    var d := Decimal(n);
    DecimalIsNumber(n);
    DigitsTrimmed(d);
    var s := " " + d + "\n";
    assert s[1..] == d + "\n" && (d + "\n")[..|d|] == d;
    assert TrimLeft(d + "\n") == d + "\n";
  }

  lemma NumberTaken(s: string)
    requires IsNumber(s)
    ensures Integer(s) == Some(Number(s))
  {
    DigitsTrimmed(s);
  }

  lemma DigitsJoined(a: string, b: string)
    requires a != "" && b != "" && forall i :: 0 <= i < |a| ==> IsDigit(a[i])
    requires forall i :: 0 <= i < |b| ==> IsDigit(b[i])
    ensures IsNumber(a + "_" + b) && IsNumber(a + b)
  {
    var s, t := a + "_" + b, a + b;
    assert s[|s| - 1] == b[|b| - 1] && t[|t| - 1] == b[|b| - 1];
    forall i | 0 <= i < |s| ensures if i == |a| then s[i] == '_' else IsDigit(s[i]) {
      assert i > |a| ==> s[i] == b[i - |a| - 1];
    }
    forall i | 0 <= i < |t| ensures IsDigit(t[i]) {
      assert i >= |a| ==> t[i] == b[i - |a|];
    }
  }

  lemma UnderscoreTaken(n: nat, m: nat)
    ensures Integer(Decimal(n) + "_" + Decimal(m)) == Integer(Decimal(n) + Decimal(m)) != None
  {
    var a, b := Decimal(n), Decimal(m);
    DecimalIsNumber(n);
    DecimalIsNumber(m);
    DigitsJoined(a, b);
    NumberTaken(a + "_" + b);
    NumberTaken(a + b);
    NumberSkips(a, b);
  }

  lemma {:induction false} NumberSkips(a: string, b: string)
    requires forall i :: 0 <= i < |a| ==> IsDigit(a[i])
    requires forall i :: 0 <= i < |b| ==> IsDigit(b[i])
    ensures Number(a + "_" + b) == Number(a + b)
    decreases |b|
  {
    var s, t := a + "_" + b, a + b;
    if b == "" {
      assert s[..|s| - 1] == a && t == a;
    } else {
      var c := b[..|b| - 1];
      assert s[..|s| - 1] == a + "_" + c && t[..|t| - 1] == a + c;
      NumberSkips(a, c);
    }
  }

  /** An open range is its first number. */
  lemma OpenRangeIsOne(n: nat)
    ensures ReadPart(Decimal(n) + "-") == Some([n])
  {
    PlainDecimal(n);
    DecimalRoundTrip(n);
    var d := Decimal(n);
    DashFirst(d, "");
    assert d + "-" + "" == d + "-" && (d + "-")[..|d|] == d && (d + "-")[|d| + 1..] == "";
    assert UpTo(n, n) == [n];
  }
}
