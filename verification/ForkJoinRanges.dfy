/** The midpoint range loops and reductions, and the two hand-written trees of the C test, as
    programs of the fork-join protocol. */
module ForkJoinRanges {
  import opened ForkJoin
  import opened ForkJoinSchedules

  // The split rule.

  function Mid(b: nat, e: nat): nat
    requires b <= e
  {
    b + (e - b) / 2
  }

  datatype Span = Span(b: nat, e: nat)

  type Leaf<!V> = (nat, nat) -> V

  type Combine<!V> = (V, V) -> V

  /** A node halves its range down to the grain; its join combines left and right in order. */
  function RangeRun<V>(grain: nat, leaf: Leaf<V>, s: Span): Outcome<Span, (), V> {
    if s.e <= s.b + grain then Complete(leaf(s.b, s.e))
    else Fork([Span(s.b, Mid(s.b, s.e)), Span(Mid(s.b, s.e), s.e)], ())
  }

  function RangeJoin<V>(combine: Combine<V>, none: V, vs: seq<V>): Outcome<Span, (), V> {
    Complete(if |vs| == 2 then combine(vs[0], vs[1]) else none)
  }

  function RangeRank(s: Span): nat {
    if s.e <= s.b then 1 else s.e - s.b + 1
  }

  function RangeProgram<V>(grain: nat, leaf: Leaf<V>, combine: Combine<V>, none: V): Program<Span, (), V> {
    Program((s: Span) => RangeRun(grain, leaf, s), (c: (), vs: seq<V>) => RangeJoin(combine, none, vs),
            RangeRank, (c: ()) => 0)
  }

  lemma RangeWellFounded<V(!new)>(grain: nat, leaf: Leaf<V>, combine: Combine<V>, none: V)
    requires grain >= 1
    ensures WellFounded(RangeProgram(grain, leaf, combine, none))
  {
    var p := RangeProgram(grain, leaf, combine, none);
    forall s: Span ensures Descends(p, p.rank(s), p.run(s)) {
      if p.run(s).Fork? {
        assert s.b < Mid(s.b, s.e) < s.e;
        var kids := p.run(s).kids;
        assert kids[0] == Span(s.b, Mid(s.b, s.e)) && kids[1] == Span(Mid(s.b, s.e), s.e);
      }
    }
  }

  /** The reference fold: the tree of the split rule, evaluated directly. */
  function Reference<V>(b: nat, e: nat, grain: nat, leaf: Leaf<V>, combine: Combine<V>): V
    requires b <= e && grain >= 1
    decreases e - b
  {
    if e - b <= grain then leaf(b, e)
    else combine(Reference(b, Mid(b, e), grain, leaf, combine), Reference(Mid(b, e), e, grain, leaf, combine))
  }

  lemma {:induction false} EvalIsReference<V(!new)>(grain: nat, leaf: Leaf<V>, combine: Combine<V>, none: V, b: nat,
                                                    e: nat)
    requires grain >= 1 && b <= e && WellFounded(RangeProgram(grain, leaf, combine, none))
    ensures Eval(RangeProgram(grain, leaf, combine, none), Span(b, e)) == Reference(b, e, grain, leaf, combine)
    decreases e - b
  {
    var p := RangeProgram(grain, leaf, combine, none);
    var s := Span(b, e);
    if e - b <= grain {
    } else {
      var m := Mid(b, e);
      EvalIsReference(grain, leaf, combine, none, b, m);
      EvalIsReference(grain, leaf, combine, none, m, e);
      var kids := [Span(b, m), Span(m, e)];
      assert p.run(s) == Fork(kids, ());
      assert Descends(p, p.rank(s), p.run(s));
      EvalAllAt(p, kids, p.rank(s), 0);
      EvalAllAt(p, kids, p.rank(s), 1);
    }
  }

  /** Determinism of the reduction: every schedule by any number of participants ends with the
      reference value, for any leaf and any join, associative or not. */
  lemma ReductionDeterministic<V(!new)>(grain: nat, leaf: Leaf<V>, combine: Combine<V>, none: V, b: nat, e: nat,
                                        schedule: seq<seq<nat>>, u: Node<Span, (), V>)
    requires grain >= 1 && b <= e
    requires Run(RangeProgram(grain, leaf, combine, none), Ready(Span(b, e)), schedule, u)
    requires Stuck(RangeProgram(grain, leaf, combine, none), u)
    ensures u == Storing(Reference(b, e, grain, leaf, combine))
  {
    RangeWellFounded(grain, leaf, combine, none);
    EvalIsReference(grain, leaf, combine, none, b, e);
    EveryScheduleAgrees(RangeProgram(grain, leaf, combine, none), Weights(1, 1, 1), Span(b, e), schedule, u);
  }

  // The shape of the tree.

  datatype Shape = Tip(n: nat) | Branch(left: Shape, right: Shape)
  {
    function Size(): nat {
      match this
      case Tip(n) => n
      case Branch(left, right) => left.Size() + right.Size()
    }

    /** Split exactly where it is longer than the grain, the left part being half, rounded down. */
    predicate Halved(grain: nat) {
      match this
      case Tip(n) => n <= grain
      case Branch(left, right) =>
        && left.Size() + right.Size() > grain && left.Size() == (left.Size() + right.Size()) / 2
        && left.Halved(grain) && right.Halved(grain)
    }

    /** The tree's joins over the leaves that start at `b`. */
    function Apply<V>(b: nat, leaf: Leaf<V>, combine: Combine<V>): V {
      match this
      case Tip(n) => leaf(b, b + n)
      case Branch(left, right) => combine(left.Apply(b, leaf, combine), right.Apply(b + left.Size(), leaf, combine))
    }
  }

  /** There is one halved tree of each size. */
  lemma {:induction false} HalvedTree(n: nat, grain: nat) returns (t: Shape)
    requires grain >= 1
    ensures t.Halved(grain) && t.Size() == n
  {
    if n <= grain {
      t := Tip(n);
    } else {
      var left := HalvedTree(n / 2, grain);
      var right := HalvedTree(n - n / 2, grain);
      t := Branch(left, right);
    }
  }

  lemma {:induction false} HalvedUnique(t: Shape, u: Shape, grain: nat)
    requires t.Halved(grain) && u.Halved(grain) && t.Size() == u.Size()
    ensures t == u
  {
    if t.Tip? || u.Tip? {
    } else {
      HalvedUnique(t.left, u.left, grain);
      HalvedUnique(t.right, u.right, grain);
    }
  }

  /** The reference fold is the halved tree's, whatever the leaf and the join. */
  lemma {:induction false} ReferenceHalves<V>(t: Shape, b: nat, grain: nat, leaf: Leaf<V>, combine: Combine<V>)
    requires grain >= 1 && t.Halved(grain)
    ensures Reference(b, b + t.Size(), grain, leaf, combine) == t.Apply(b, leaf, combine)
  {
    match t
    case Tip(_) =>
    case Branch(left, right) =>
      assert Mid(b, b + t.Size()) == b + left.Size();
      ReferenceHalves(left, b, grain, leaf, combine);
      ReferenceHalves(right, b + left.Size(), grain, leaf, combine);
  }

  /** Every schedule of a reduction joins its leaves in the shape of the one halved tree. */
  lemma ReductionHalves<V(!new)>(t: Shape, grain: nat, leaf: Leaf<V>, combine: Combine<V>, none: V, b: nat,
                                 schedule: seq<seq<nat>>, u: Node<Span, (), V>)
    requires grain >= 1 && t.Halved(grain)
    requires Run(RangeProgram(grain, leaf, combine, none), Ready(Span(b, b + t.Size())), schedule, u)
    requires Stuck(RangeProgram(grain, leaf, combine, none), u)
    ensures u == Storing(t.Apply(b, leaf, combine))
  {
    ReductionDeterministic(grain, leaf, combine, none, b, b + t.Size(), schedule, u);
    ReferenceHalves(t, b, grain, leaf, combine);
  }

  // Against a serial fold.

  function Fold<V>(op: Combine<V>, term: nat -> V, acc: V, b: nat, e: nat): V
    requires b <= e
    decreases e - b
  {
    if b == e then acc else op(Fold(op, term, acc, b, e - 1), term(e - 1))
  }

  lemma {:induction false} FoldSplit<V>(op: Combine<V>, term: nat -> V, acc: V, b: nat, m: nat, e: nat)
    requires b <= m <= e
    ensures Fold(op, term, acc, b, e) == Fold(op, term, Fold(op, term, acc, b, m), m, e)
    decreases e - m
  {
    if m >= e {
    } else {
      FoldSplit(op, term, acc, b, m, e - 1);
    }
  }

  ghost predicate Associative<V(!new)>(op: Combine<V>) {
    forall x, y, z {:trigger op(op(x, y), z)} {:trigger op(x, op(y, z))} :: op(op(x, y), z) == op(x, op(y, z))
  }

  function SeededLeaf<V>(op: Combine<V>, term: nat -> V, seed: V): Leaf<V> {
    (b: nat, e: nat) => if b <= e then Fold(op, term, seed, b, e) else seed
  }

  /** Every reduction with this join and seed equals the serial fold, whatever the terms, range and
      grain. */
  ghost predicate FoldsSerially<V(!new)>(op: Combine<V>, seed: V) {
    forall term: nat -> V, b: nat, e: nat, grain: nat :: b <= e && grain >= 1 ==>
      Reference(b, e, grain, SeededLeaf(op, term, seed), op) == Fold(op, term, seed, b, e)
  }

  ghost predicate Identity<V(!new)>(op: Combine<V>, seed: V) {
    forall x {:trigger op(x, seed)} {:trigger op(seed, x)} :: op(x, seed) == x && op(seed, x) == x
  }

  function Three<V>(x: V, y: V, z: V): nat -> V {
    (i: nat) => if i == 0 then x else if i == 1 then y else z
  }

  lemma FoldOfTwo<V>(op: Combine<V>, term: nat -> V, seed: V, b: nat)
    ensures Fold(op, term, seed, b, b + 1) == op(seed, term(b))
    ensures Fold(op, term, seed, b, b + 2) == op(op(seed, term(b)), term(b + 1))
  {
    assert Fold(op, term, seed, b, b) == seed;
  }

  /** The tree and the fold of two and of three terms, leaf by leaf. */
  lemma SmallRanges<V>(op: Combine<V>, x: V, y: V, z: V, seed: V)
    ensures var leaf := SeededLeaf(op, Three(x, y, z), seed);
      && Reference(0, 2, 1, leaf, op) == op(op(seed, x), op(seed, y))
      && Reference(0, 3, 1, leaf, op) == op(op(seed, x), op(op(seed, y), op(seed, z)))
    ensures Fold(op, Three(x, y, z), seed, 0, 2) == op(op(seed, x), y)
    ensures Fold(op, Three(x, y, z), seed, 0, 3) == op(op(op(seed, x), y), z)
  {
    var term := Three(x, y, z);
    var leaf := SeededLeaf(op, term, seed);
    FoldOfTwo(op, term, seed, 0);
    FoldOfTwo(op, term, seed, 1);
    FoldOfTwo(op, term, seed, 2);
    assert Mid(0, 2) == 1 && Mid(0, 3) == 1 && Mid(1, 3) == 2;
    assert Reference(1, 3, 1, leaf, op) == op(op(seed, y), op(seed, z));
  }

  /** The seed has no effect between two terms that follow it. */
  ghost predicate Vanishes<V(!new)>(op: Combine<V>, seed: V) {
    forall x, y {:trigger op(op(seed, x), op(seed, y))} :: op(op(seed, x), op(seed, y)) == op(op(seed, x), y)
  }

  lemma {:induction false} FoldVanishes<V(!new)>(op: Combine<V>, term: nat -> V, seed: V, x: V, b: nat, e: nat)
    requires b < e && Associative(op) && Vanishes(op, seed)
    ensures op(op(seed, x), Fold(op, term, seed, b, e)) == Fold(op, term, op(seed, x), b, e)
    decreases e - b
  {
    if b + 1 == e {
      FoldOfTwo(op, term, seed, b);
      FoldOfTwo(op, term, op(seed, x), b);
    } else {
      FoldVanishes(op, term, seed, x, b, e - 1);
    }
  }

  /** A nonempty fold from the seed is the seed joined with something. */
  lemma {:induction false} FoldAfterSeed<V(!new)>(op: Combine<V>, term: nat -> V, seed: V, b: nat, e: nat)
      returns (x: V)
    requires b < e && Associative(op)
    ensures Fold(op, term, seed, b, e) == op(seed, x)
    decreases e - b
  {
    if b + 1 == e {
      FoldOfTwo(op, term, seed, b);
      x := term(b);
    } else {
      var y := FoldAfterSeed(op, term, seed, b, e - 1);
      x := op(y, term(e - 1));
    }
  }

  lemma {:induction false} VanishingTree<V(!new)>(op: Combine<V>, term: nat -> V, seed: V, b: nat, e: nat, grain: nat)
    requires b <= e && grain >= 1 && Associative(op) && Vanishes(op, seed)
    ensures Reference(b, e, grain, SeededLeaf(op, term, seed), op) == Fold(op, term, seed, b, e)
    decreases e - b
  {
    if e - b <= grain {
    } else {
      var m := Mid(b, e);
      VanishingTree(op, term, seed, b, m, grain);
      VanishingTree(op, term, seed, m, e, grain);
      FoldSplit(op, term, seed, b, m, e);
      var x := FoldAfterSeed(op, term, seed, b, m);
      FoldVanishes(op, term, seed, x, m, e);
    }
  }

  /** With an associative join for which the seed changes nothing on the right, the midpoint tree
      over seeded leaves equals the serial left fold, for every grain. */
  lemma TreeIsSerialFold<V(!new)>(op: Combine<V>, term: nat -> V, seed: V, b: nat, e: nat, grain: nat)
    requires b <= e && grain >= 1 && Associative(op) && forall x :: op(x, seed) == x
    ensures Reference(b, e, grain, SeededLeaf(op, term, seed), op) == Fold(op, term, seed, b, e)
  {
    forall x, y ensures op(op(seed, x), op(seed, y)) == op(op(seed, x), y) {
      assert op(op(op(seed, x), seed), y) == op(op(seed, x), op(seed, y));
    }
    VanishingTree(op, term, seed, b, e, grain);
  }

  /** Associativity is exactly what the equivalence needs of the join: with an identity seed every
      reduction equals the serial fold if and only if the join is associative. */
  lemma AssociativityExact<V(!new)>(op: Combine<V>, seed: V)
    requires Identity(op, seed)
    ensures FoldsSerially(op, seed) <==> Associative(op)
  {
    if FoldsSerially(op, seed) {
      forall x, y, z ensures op(op(x, y), z) == op(x, op(y, z)) {
        SmallRanges(op, x, y, z, seed);
      }
    }
    if Associative(op) {
      forall term: nat -> V, b: nat, e: nat, grain: nat | b <= e && grain >= 1
        ensures Reference(b, e, grain, SeededLeaf(op, term, seed), op) == Fold(op, term, seed, b, e)
      {
        TreeIsSerialFold(op, term, seed, b, e, grain);
      }
    }
  }

  /** What the equivalence needs of the seed: with an associative join every reduction equals the
      serial fold if and only if the seed vanishes between terms, of which an identity is one case. */
  lemma SeedExact<V(!new)>(op: Combine<V>, seed: V)
    requires Associative(op)
    ensures FoldsSerially(op, seed) <==> Vanishes(op, seed)
    ensures Identity(op, seed) ==> Vanishes(op, seed)
  {
    if FoldsSerially(op, seed) {
      forall x, y ensures op(op(seed, x), op(seed, y)) == op(op(seed, x), y) {
        SmallRanges(op, x, y, y, seed);
      }
    }
    if Vanishes(op, seed) {
      forall term: nat -> V, b: nat, e: nat, grain: nat | b <= e && grain >= 1
        ensures Reference(b, e, grain, SeededLeaf(op, term, seed), op) == Fold(op, term, seed, b, e)
      {
        VanishingTree(op, term, seed, b, e, grain);
      }
    }
  }

  /** Subtraction, except that 0 is an identity on both sides. */
  function Skew(a: int, b: int): int {
    if a == 0 then b else if b == 0 then a else a - b
  }

  /** A join with a two-sided identity seed that is not associative: some reduction differs from
      the serial fold. */
  lemma AssociativityNeeded()
    ensures Identity(Skew, 0) && !FoldsSerially(Skew, 0)
    ensures Reference(0, 3, 1, SeededLeaf(Skew, Three(1, 2, 3), 0), Skew) == 2
    ensures Fold(Skew, Three(1, 2, 3), 0, 0, 3) == -4
  {
    SmallRanges(Skew, 1, 2, 3, 0);
  }

  // Leaves of the split.

  function Indices(b: nat, e: nat): (r: seq<nat>)
    ensures |r| == if b <= e then e - b else 0
    ensures forall i :: 0 <= i < |r| ==> r[i] == b + i
  {
    seq(if b <= e then e - b else 0, i requires i >= 0 => b + i)
  }

  function Concat(a: seq<nat>, b: seq<nat>): seq<nat> {
    a + b
  }

  /** A range loop visits each index of `[b, e)` exactly once, in order within every subtree. */
  lemma {:induction false} LoopVisitsOnce(b: nat, e: nat, grain: nat)
    requires b <= e && grain >= 1
    ensures Reference(b, e, grain, Indices, Concat) == Indices(b, e)
    decreases e - b
  {
    if e - b <= grain {
    } else {
      var m := Mid(b, e);
      LoopVisitsOnce(b, m, grain);
      LoopVisitsOnce(m, e, grain);
      assert Indices(b, m) + Indices(m, e) == Indices(b, e);
    }
  }

  /** Every finished schedule of a range loop has visited each index of `[b, e)` exactly once. */
  lemma LoopSchedules(b: nat, e: nat, grain: nat, schedule: seq<seq<nat>>, u: Node<Span, (), seq<nat>>)
    requires b <= e && grain >= 1
    requires Run(RangeProgram(grain, Indices, Concat, []), Ready(Span(b, e)), schedule, u)
    requires Stuck(RangeProgram(grain, Indices, Concat, []), u)
    ensures u == Storing(Indices(b, e))
  {
    ReductionDeterministic(grain, Indices, Concat, [], b, e, schedule, u);
    LoopVisitsOnce(b, e, grain);
  }

  function Spans(b: nat, e: nat): seq<Span> {
    [Span(b, e)]
  }

  function ConcatSpans(a: seq<Span>, b: seq<Span>): seq<Span> {
    a + b
  }

  /** The leaves partition the range: they follow on from one another from `b` to `e`, and each is
      nonempty and no longer than the grain, unless the whole range is empty. */
  ghost predicate Tiles(leaves: seq<Span>, b: nat, e: nat, grain: nat) {
    && leaves != [] && leaves[0].b == b && leaves[|leaves| - 1].e == e
    && (forall i :: 0 <= i < |leaves| - 1 ==> leaves[i].e == leaves[i + 1].b)
    && forall i :: 0 <= i < |leaves| ==> leaves[i].b < leaves[i].e <= leaves[i].b + grain
  }

  lemma {:induction false} LeavesTile(b: nat, e: nat, grain: nat)
    requires b < e && grain >= 1
    ensures Tiles(Reference(b, e, grain, Spans, ConcatSpans), b, e, grain)
    decreases e - b
  {
    if e - b <= grain {
    } else {
      var m := Mid(b, e);
      LeavesTile(b, m, grain);
      LeavesTile(m, e, grain);
    }
  }

  // The public calls.

  datatype Result<V> = Invalid | Ok(value: V)

  /** What a reduction call returns once its tree, if any, has run. */
  function ReduceResult<V>(b: nat, e: nat, grain: nat, seed: V, leaf: Leaf<V>, combine: Combine<V>): Result<V> {
    if grain == 0 || e < b then Invalid
    else if b == e then Ok(seed)
    else Ok(Reference(b, e, grain, leaf, combine))
  }

  /** The documented equivalence to a serial fold, for every argument: refused exactly for a zero
      grain or a reversed range, and otherwise the left fold from the seed, empty ranges included. */
  lemma CallIsSerialFold<V(!new)>(op: Combine<V>, term: nat -> V, seed: V, b: nat, e: nat, grain: nat)
    requires Associative(op) && forall x :: op(x, seed) == x
    ensures ReduceResult(b, e, grain, seed, SeededLeaf(op, term, seed), op)
         == if grain == 0 || e < b then Invalid else Ok(Fold(op, term, seed, b, e))
  {
    if grain >= 1 && b <= e {
      TreeIsSerialFold(op, term, seed, b, e, grain);
    }
  }

  /** The call's answer is what its tree computes under any schedule; without a tree it is the seed or
      a refusal. */
  lemma CallRunsTree<V(!new)>(b: nat, e: nat, grain: nat, seed: V, leaf: Leaf<V>, combine: Combine<V>,
                              schedule: seq<seq<nat>>, u: Node<Span, (), V>)
    requires b < e && grain >= 1 ==>
               && Run(RangeProgram(grain, leaf, combine, seed), Ready(Span(b, e)), schedule, u)
               && Stuck(RangeProgram(grain, leaf, combine, seed), u)
    ensures var r := ReduceResult(b, e, grain, seed, leaf, combine);
      if grain == 0 || e < b then r == Invalid
      else if b == e then r == Ok(seed)
      else u.Storing? && r == Ok(u.v)
  {
    if b < e && grain >= 1 {
      ReductionDeterministic(grain, leaf, combine, seed, b, e, schedule, u);
    }
  }

  // The C test's leaf and join, on wrapping 64-bit words.

  const WORD: nat := 0x1_0000_0000_0000_0000

  const FACTOR: nat := 6364136223846793005

  type Word = w: nat | w < WORD

  function LeafStep(v: Word, i: nat): Word {
    (v * FACTOR + i) % WORD
  }

  function LeafFold(seed: Word, b: nat, e: nat): Word
    requires b <= e
    decreases e - b
  {
    if b == e then seed else LeafStep(LeafFold(seed, b, e - 1), e - 1)
  }

  function TestLeaf(seed: Word): Leaf<Word> {
    (b: nat, e: nat) => if b <= e then LeafFold(seed, b, e) else seed
  }

  function TestJoin(a: Word, b: Word): Word {
    (a * 17 + b) % WORD
  }

  /** The leaf's and the join's words, number by number. */
  lemma TestWords(seed: Word, b: nat, e: nat, left: Word, right: Word)
    requires b <= e
    ensures LeafFold(seed, b, b) == seed
    ensures LeafFold(seed, b, e + 1) == (LeafFold(seed, b, e) * 6364136223846793005 + e) % 18446744073709551616
    ensures TestJoin(left, right) == (left * 17 + right) % 18446744073709551616
  {
  }

  method ReduceLeaf(seed: Word, b: nat, e: nat) returns (v: Word)
    requires b <= e
    ensures v == LeafFold(seed, b, e)
  {
    v := seed;
    for i := b to e
      invariant v == LeafFold(seed, b, i)
    {
      v := (v * FACTOR + i) % WORD;
    }
  }

  /** The recursive reference of the test, whose leaves are the loop above. */
  method TestReference(b: nat, e: nat, grain: nat, seed: Word) returns (r: Word)
    requires b <= e && grain >= 1
    ensures r == Reference(b, e, grain, TestLeaf(seed), TestJoin)
    decreases e - b
  {
    if e - b <= grain {
      r := ReduceLeaf(seed, b, e);
    } else {
      var m := b + (e - b) / 2;
      var left := TestReference(b, m, grain, seed);
      var right := TestReference(m, e, grain, seed);
      r := (left * 17 + right) % WORD;
    }
  }

  // Trees written by hand.

  /** A sum of two words, wrapping. */
  function WrapAdd(a: Word, b: Word): Word {
    (a + b) % WORD
  }

  function FibRun(n: nat): Outcome<nat, (), Word> {
    if n < 2 then Complete(n) else Fork([n - 1, n - 2], ())
  }

  function FibJoin(c: (), vs: seq<Word>): Outcome<nat, (), Word> {
    Complete(if |vs| == 2 then WrapAdd(vs[0], vs[1]) else 0)
  }

  /** Fibonacci by forking: children `n - 1` and `n - 2`, joined by a wrapping addition. */
  function FibProgram(): Program<nat, (), Word> {
    Program<nat, (), Word>.Program(FibRun, FibJoin, (n: nat) => n + 1, (c: ()) => 0)
  }

  function Fib(n: nat): nat {
    if n < 2 then n else Fib(n - 1) + Fib(n - 2)
  }

  lemma FibWellFounded()
    ensures WellFounded(FibProgram())
  {
    var p := FibProgram();
    forall n: nat ensures Descends(p, p.rank(n), p.run(n)) {
      if n >= 2 {
        assert p.run(n) == Fork([n - 1, n - 2], ());
      }
    }
  }

  function Wrap(n: nat): Word {
    n % WORD
  }

  lemma WrapSum(a: nat, b: nat)
    ensures WrapAdd(Wrap(a), Wrap(b)) == Wrap(a + b)
  {
    var sum := WrapAdd(Wrap(a), Wrap(b));
    var laps := a / WORD + b / WORD + if Wrap(a) + Wrap(b) < WORD then 0 else 1;
    assert a + b == laps * WORD + sum;
  }

  lemma {:induction false} FibEval(n: nat)
    requires WellFounded(FibProgram())
    ensures Eval(FibProgram(), n) == Wrap(Fib(n))
  {
    var p := FibProgram();
    assert p.run(n) == FibRun(n) && Descends(p, p.rank(n), p.run(n));
    if n < 2 {
    } else {
      FibEval(n - 1);
      FibEval(n - 2);
      var kids := [n - 1, n - 2];
      EvalAllAt(p, kids, p.rank(n), 0);
      EvalAllAt(p, kids, p.rank(n), 1);
      FibStep(n, EvalAll(p, kids, p.rank(n)));
    }
  }

  lemma FibStep(n: nat, vs: seq<Word>)
    requires WellFounded(FibProgram()) && n >= 2 && vs == [Wrap(Fib(n - 1)), Wrap(Fib(n - 2))]
    ensures EvalJoin(FibProgram(), (), vs) == Wrap(Fib(n))
  {
    WrapSum(Fib(n - 1), Fib(n - 2));
  }

  lemma FibDeterministic(n: nat, schedule: seq<seq<nat>>, u: Node<nat, (), Word>)
    requires Run(FibProgram(), Ready(n), schedule, u) && Stuck(FibProgram(), u)
    ensures u == Storing(Wrap(Fib(n)))
  {
    FibWellFounded();
    FibEval(n);
    EveryScheduleAgrees(FibProgram(), Weights(1, 1, 1), n, schedule, u);
  }

  /** The C test's own number: `fib(12)` is 144 under every schedule. */
  lemma FibOfTwelve(schedule: seq<seq<nat>>, u: Node<nat, (), Word>)
    requires Run(FibProgram(), Ready(12), schedule, u) && Stuck(FibProgram(), u)
    ensures u == Storing(144)
  {
    FibDeterministic(12, schedule, u);
    assert Fib(6) == 8 && Fib(7) == 13;
    assert Fib(10) == 55 && Fib(11) == 89;
  }

  datatype PhaseTask = PhaseRoot | PhaseLeaf

  const ROUNDS: nat := 5

  type Round = r: nat | r < ROUNDS

  function PhaseRun(s: PhaseTask): Outcome<PhaseTask, Round, nat> {
    if s == PhaseRoot then Fork([PhaseLeaf], 0) else Complete(0)
  }

  function PhaseJoin(r: Round, vs: seq<nat>): Outcome<PhaseTask, Round, nat> {
    if r + 1 == ROUNDS then Complete(r + 1) else Fork([PhaseLeaf], r + 1)
  }

  /** A join that forks one more child until it has run `ROUNDS` times; the value is the count. */
  function PhaseProgram(): Program<PhaseTask, Round, nat> {
    Program<PhaseTask, Round, nat>.Program(
      PhaseRun, PhaseJoin, (s: PhaseTask) => if s == PhaseRoot then ROUNDS + 1 else 0, (r: Round) => ROUNDS - r)
  }

  lemma PhaseWellFounded()
    ensures WellFounded(PhaseProgram())
  {
    var p := PhaseProgram();
    forall s ensures Descends(p, p.rank(s), p.run(s)) {}
    forall r: Round, vs: seq<nat> ensures Descends(p, p.contRank(r), p.join(r, vs)) {}
  }

  lemma {:induction false} PhaseFrom(r: Round, vs: seq<nat>)
    requires WellFounded(PhaseProgram())
    ensures EvalJoin(PhaseProgram(), r, vs) == ROUNDS
    ensures CostJoin(PhaseProgram(), Weights(0, 1, 0), r, vs) == ROUNDS - r
    decreases ROUNDS - r
  {
    var p := PhaseProgram();
    assert Descends(p, p.contRank(r), p.join(r, vs));
    if r + 1 >= ROUNDS {
    } else {
      PhaseFrom(r + 1, EvalAll(p, [PhaseLeaf], p.contRank(r)));
      PhaseLeafFree(p.contRank(r));
    }
  }

  lemma PhaseLeafFree(bound: nat)
    requires WellFounded(PhaseProgram()) && bound > 0
    ensures CostAll(PhaseProgram(), Weights(0, 1, 0), [PhaseLeaf], bound) == 0
  {
    var p := PhaseProgram();
    assert p.run(PhaseLeaf) == Complete(0);
    assert Cost(p, Weights(0, 1, 0), PhaseLeaf) == 0;
    assert CostAll(p, Weights(0, 1, 0), [PhaseLeaf][1..], bound) == 0;
  }

  /** A join that forks again: every schedule ends after exactly five joins. */
  lemma PhasesDeterministic(schedule: seq<seq<nat>>, u: Node<PhaseTask, Round, nat>)
    requires Run(PhaseProgram(), Ready(PhaseRoot), schedule, u) && Stuck(PhaseProgram(), u)
    ensures u == Storing(5)
    ensures Spent(PhaseProgram(), Weights(0, 1, 0), Ready(PhaseRoot), schedule) == 5
  {
    var p := PhaseProgram();
    PhaseWellFounded();
    assert Descends(p, p.rank(PhaseRoot), p.run(PhaseRoot));
    PhaseFrom(0, EvalAll(p, [PhaseLeaf], p.rank(PhaseRoot)));
    PhaseLeafFree(p.rank(PhaseRoot));
    EveryScheduleAgrees(p, Weights(0, 1, 0), PhaseRoot, schedule, u);
  }
}
