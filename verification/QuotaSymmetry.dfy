/** Symmetry reduction of the quota model: after each producer step the explorer sorts the
    producers of equal quota. The reduced system visits one state of every orbit. */
module QuotaSymmetry {
  import opened QuotaProtocol

  // The order in which the explorer sorts producer tuples.

  predicate Leq(a: Producer, b: Producer) {
    || a.balance < b.balance
    || (a.balance == b.balance && (a.anchor < b.anchor || (a.anchor == b.anchor && a.step <= b.step)))
  }

  predicate Sorted(s: seq<Producer>) {
    forall i, j :: 0 <= i < j < |s| ==> Leq(s[i], s[j])
  }

  function Insert(x: Producer, s: seq<Producer>): (r: seq<Producer>)
    ensures |r| == |s| + 1
  {
    if s == [] || Leq(x, s[0]) then [x] + s else [s[0]] + Insert(x, s[1..])
  }

  function Sort(s: seq<Producer>): (r: seq<Producer>)
    ensures |r| == |s|
  {
    if s == [] then [] else Insert(s[0], Sort(s[1..]))
  }

  lemma {:induction false} InsertFacts(x: Producer, s: seq<Producer>)
    requires Sorted(s)
    ensures Sorted(Insert(x, s)) && multiset(Insert(x, s)) == multiset(s) + multiset{x}
  {
    if s == [] {
    } else if Leq(x, s[0]) {
      assert forall j :: 0 <= j < |s| ==> Leq(x, s[j]);
    } else {
      InsertFacts(x, s[1..]);
      assert s == [s[0]] + s[1..];
      Below(s[0], x, s[1..], Insert(x, s[1..]));
    }
  }

  lemma Below(y: Producer, x: Producer, s: seq<Producer>, r: seq<Producer>)
    requires Leq(y, x) && (forall z :: z in s ==> Leq(y, z)) && multiset(r) == multiset(s) + multiset{x}
    ensures forall j :: 0 <= j < |r| ==> Leq(y, r[j])
  {
    forall j | 0 <= j < |r| ensures Leq(y, r[j]) {
      assert r[j] in multiset(r);
    }
  }

  /** Sorting gives a sorted permutation. */
  lemma {:induction false} SortFacts(s: seq<Producer>)
    ensures Sorted(Sort(s)) && multiset(Sort(s)) == multiset(s)
  {
    if s == [] {
    } else {
      SortFacts(s[1..]);
      InsertFacts(s[0], Sort(s[1..]));
      assert s == [s[0]] + s[1..];
    }
  }

  lemma {:induction false} SortedUnique(s: seq<Producer>, t: seq<Producer>)
    requires Sorted(s) && Sorted(t) && multiset(s) == multiset(t)
    ensures s == t
  {
    assert |s| == |multiset(s)| == |multiset(t)| == |t|;
    if s == [] {
    } else {
      HeadCounts(s);
      HeadCounts(t);
      LeastFirst(s, t[0]);
      LeastFirst(t, s[0]);
      SortedUnique(s[1..], t[1..]);
      assert s == [s[0]] + s[1..] && t == [t[0]] + t[1..];
    }
  }

  lemma HeadCounts(s: seq<Producer>)
    requires s != []
    ensures s[0] in multiset(s) && multiset(s[1..]) == multiset(s) - multiset{s[0]}
  {
    assert s == [s[0]] + s[1..];
  }

  lemma LeastFirst(s: seq<Producer>, x: Producer)
    requires Sorted(s) && s != [] && x in multiset(s)
    ensures Leq(s[0], x)
  {
    var i :| 0 <= i < |s| && s[i] == x;
  }

  // Classes of producers with the same quota.

  function Class(qs: seq<nat>, ps: seq<Producer>, q: nat): (c: seq<Producer>)
    requires |qs| == |ps|
  {
    if qs == [] then []
    else (if qs[0] == q then [ps[0]] else []) + Class(qs[1..], ps[1..], q)
  }

  function Pairs(qs: seq<nat>, ps: seq<Producer>): (z: seq<(nat, Producer)>)
    requires |qs| == |ps|
    ensures |z| == |qs| && forall i :: 0 <= i < |z| ==> z[i] == (qs[i], ps[i])
  {
    seq(|qs|, i requires 0 <= i < |qs| => (qs[i], ps[i]))
  }

  /** The producers up to a permutation of equal quotas. */
  function Roles(qs: seq<nat>, ps: seq<Producer>): multiset<(nat, Producer)>
    requires |qs| == |ps|
  {
    multiset(Pairs(qs, ps))
  }

  lemma {:induction false} RolesCount(qs: seq<nat>, ps: seq<Producer>, q: nat, x: Producer)
    requires |qs| == |ps|
    ensures Roles(qs, ps)[(q, x)] == multiset(Class(qs, ps, q))[x]
  {
    if qs == [] {
    } else {
      RolesCount(qs[1..], ps[1..], q, x);
      assert Pairs(qs, ps) == [(qs[0], ps[0])] + Pairs(qs[1..], ps[1..]);
    }
  }

  lemma RolesFromClasses(qs: seq<nat>, ps: seq<Producer>, ts: seq<Producer>)
    requires |qs| == |ps| == |ts|
    requires forall q :: multiset(Class(qs, ps, q)) == multiset(Class(qs, ts, q))
    ensures Roles(qs, ps) == Roles(qs, ts)
  {
    forall z: (nat, Producer) ensures Roles(qs, ps)[z] == Roles(qs, ts)[z] {
      RolesCount(qs, ps, z.0, z.1);
      RolesCount(qs, ts, z.0, z.1);
    }
  }

  lemma ClassesFromRoles(qs: seq<nat>, ps: seq<Producer>, ts: seq<Producer>, q: nat)
    requires |qs| == |ps| == |ts| && Roles(qs, ps) == Roles(qs, ts)
    ensures multiset(Class(qs, ps, q)) == multiset(Class(qs, ts, q))
  {
    forall x ensures multiset(Class(qs, ps, q))[x] == multiset(Class(qs, ts, q))[x] {
      RolesCount(qs, ps, q, x);
      RolesCount(qs, ts, q, x);
    }
  }

  lemma {:induction false} ClassesDetermine(qs: seq<nat>, ps: seq<Producer>, ts: seq<Producer>)
    requires |qs| == |ps| == |ts|
    requires forall q :: Class(qs, ps, q) == Class(qs, ts, q)
    ensures ps == ts
  {
    if qs == [] {
    } else {
      assert Class(qs, ps, qs[0]) == Class(qs, ts, qs[0]);
      forall q ensures Class(qs[1..], ps[1..], q) == Class(qs[1..], ts[1..], q) {
        assert Class(qs, ps, q) == Class(qs, ts, q);
        var c := if qs[0] == q then 1 else 0;
        assert Class(qs[1..], ps[1..], q) == Class(qs, ps, q)[c..];
        assert Class(qs[1..], ts[1..], q) == Class(qs, ts, q)[c..];
      }
      ClassesDetermine(qs[1..], ps[1..], ts[1..]);
      assert ps[0] == Class(qs, ps, qs[0])[0] == Class(qs, ts, qs[0])[0] == ts[0];
      assert ps == [ps[0]] + ps[1..] && ts == [ts[0]] + ts[1..];
    }
  }

  // Canonical order.

  /** `ps` with the class of quota `q` overwritten, in order, by `vals`. */
  function PutClass(qs: seq<nat>, ps: seq<Producer>, q: nat, vals: seq<Producer>): (r: seq<Producer>)
    requires |qs| == |ps| && |vals| == |Class(qs, ps, q)|
    ensures |r| == |ps|
  {
    if qs == [] then []
    else if qs[0] == q then [vals[0]] + PutClass(qs[1..], ps[1..], q, vals[1..])
    else [ps[0]] + PutClass(qs[1..], ps[1..], q, vals)
  }

  lemma {:induction false} PutClassClass(qs: seq<nat>, ps: seq<Producer>, q: nat, vals: seq<Producer>, r: nat)
    requires |qs| == |ps| && |vals| == |Class(qs, ps, q)|
    ensures Class(qs, PutClass(qs, ps, q, vals), r) == if r == q then vals else Class(qs, ps, r)
  {
    if qs == [] {
    } else {
      PutClassClass(qs[1..], ps[1..], q, if qs[0] == q then vals[1..] else vals, r);
    }
  }

  function SortClass(qs: seq<nat>, ps: seq<Producer>, q: nat): (r: seq<Producer>)
    requires |qs| == |ps|
    ensures |r| == |ps|
  {
    PutClass(qs, ps, q, Sort(Class(qs, ps, q)))
  }

  function SortClasses(qs: seq<nat>, ps: seq<Producer>, todo: seq<nat>): (r: seq<Producer>)
    requires |qs| == |ps|
    ensures |r| == |ps|
    decreases |todo|
  {
    if todo == [] then ps else SortClasses(qs, SortClass(qs, ps, todo[0]), todo[1..])
  }

  function Canon(qs: seq<nat>, ps: seq<Producer>): (r: seq<Producer>)
    requires |qs| == |ps|
    ensures |r| == |ps|
  {
    SortClasses(qs, ps, qs)
  }

  lemma {:induction false} SortClassesClass(qs: seq<nat>, ps: seq<Producer>, todo: seq<nat>, q: nat)
    requires |qs| == |ps|
    ensures Class(qs, SortClasses(qs, ps, todo), q) ==
            if q in todo then Sort(Class(qs, ps, q)) else Class(qs, ps, q)
    decreases |todo|
  {
    if todo == [] {
    } else {
      var mid := SortClass(qs, ps, todo[0]);
      PutClassClass(qs, ps, todo[0], Sort(Class(qs, ps, todo[0])), q);
      SortClassesClass(qs, mid, todo[1..], q);
      if q == todo[0] {
        SortFacts(Class(qs, ps, q));
        SortFacts(Class(qs, mid, q));
        SortedUnique(Sort(Class(qs, mid, q)), Class(qs, mid, q));
      }
    }
  }

  lemma {:induction false} ClassEmpty(qs: seq<nat>, ps: seq<Producer>, q: nat)
    requires |qs| == |ps| && q !in qs
    ensures Class(qs, ps, q) == []
  {
    if qs == [] {
    } else {
      ClassEmpty(qs[1..], ps[1..], q);
    }
  }

  lemma CanonClass(qs: seq<nat>, ps: seq<Producer>, q: nat)
    requires |qs| == |ps|
    ensures Class(qs, Canon(qs, ps), q) == Sort(Class(qs, ps, q))
  {
    SortClassesClass(qs, ps, qs, q);
    if q !in qs {
      ClassEmpty(qs, ps, q);
    }
  }

  /** Canonical order only permutes producers of equal quota. */
  lemma CanonRoles(qs: seq<nat>, ps: seq<Producer>)
    requires |qs| == |ps|
    ensures Roles(qs, Canon(qs, ps)) == Roles(qs, ps)
  {
    forall q ensures multiset(Class(qs, Canon(qs, ps), q)) == multiset(Class(qs, ps, q)) {
      CanonClass(qs, ps, q);
      SortFacts(Class(qs, ps, q));
    }
    RolesFromClasses(qs, Canon(qs, ps), ps);
  }

  /** A full canonical form: it is the only sorted arrangement of its roles. */
  lemma CanonUnique(qs: seq<nat>, ps: seq<Producer>, ts: seq<Producer>)
    requires |qs| == |ps| == |ts| && Roles(qs, ps) == Roles(qs, ts)
    requires forall q :: Sorted(Class(qs, ts, q))
    ensures ts == Canon(qs, ps)
  {
    forall q ensures Class(qs, ts, q) == Class(qs, Canon(qs, ps), q) {
      CanonClass(qs, ps, q);
      ClassesFromRoles(qs, ps, ts, q);
      SortFacts(Class(qs, ps, q));
      SortedUnique(Class(qs, ts, q), Sort(Class(qs, ps, q)));
    }
    ClassesDetermine(qs, ts, Canon(qs, ps));
  }

  /** The canonical form separates exactly the orbits of equal-quota permutations. */
  lemma CanonExact(qs: seq<nat>, ps: seq<Producer>, ts: seq<Producer>)
    requires |qs| == |ps| == |ts|
    ensures Canon(qs, ps) == Canon(qs, ts) <==> Roles(qs, ps) == Roles(qs, ts)
  {
    CanonRoles(qs, ps);
    CanonRoles(qs, ts);
    forall q ensures Sorted(Class(qs, Canon(qs, ts), q)) {
      CanonClass(qs, ts, q);
      SortFacts(Class(qs, ts, q));
    }
    if Roles(qs, ps) == Roles(qs, ts) {
      CanonUnique(qs, ps, Canon(qs, ts));
    }
  }

  lemma {:induction false} ClassKeepsOrder(qs: seq<nat>, ps: seq<Producer>, i: nat, j: nat) returns (a: nat, b: nat)
    requires |qs| == |ps| && i < j < |qs| && qs[i] == qs[j]
    ensures var c := Class(qs, ps, qs[i]); a < b < |c| && c[a] == ps[i] && c[b] == ps[j]
  {
    if i == 0 {
      a := 0;
      b := ClassHolds(qs[1..], ps[1..], j - 1);
      b := b + 1;
    } else {
      a, b := ClassKeepsOrder(qs[1..], ps[1..], i - 1, j - 1);
      if qs[0] == qs[i] {
        a, b := a + 1, b + 1;
      }
    }
  }

  lemma {:induction false} ClassHolds(qs: seq<nat>, ps: seq<Producer>, j: nat) returns (b: nat)
    requires |qs| == |ps| && j < |qs|
    ensures var c := Class(qs, ps, qs[j]); b < |c| && c[b] == ps[j]
  {
    if j == 0 {
      b := 0;
    } else {
      b := ClassHolds(qs[1..], ps[1..], j - 1);
      if qs[0] == qs[j] {
        b := b + 1;
      }
    }
  }

  /** Producers of equal quota stand in the order of their tuples: balance, then anchor, then step. */
  lemma CanonOrdered(qs: seq<nat>, ps: seq<Producer>, i: nat, j: nat)
    requires |qs| == |ps| && i < j < |qs| && qs[i] == qs[j]
    ensures var x, y := Canon(qs, ps)[i], Canon(qs, ps)[j];
      || x.balance < y.balance
      || (x.balance == y.balance && (x.anchor < y.anchor || (x.anchor == y.anchor && x.step <= y.step)))
  {
    var a, b := ClassKeepsOrder(qs, Canon(qs, ps), i, j);
    CanonClass(qs, ps, qs[i]);
    SortFacts(Class(qs, ps, qs[i]));
  }

  // Equivalent states simulate each other.

  ghost predicate Equiv(p: Params, s: State, t: State) {
    && Fits(p, s) && Fits(p, t)
    && t == s.(producers := t.producers)
    && Roles(p.quotas, s.producers) == Roles(p.quotas, t.producers)
  }

  function Relabel(a: Action, j: nat): Action {
    match a
    case PinAhead => a
    case DropOldest => a
    case Probe(_) => Probe(j)
    case Reserve(_, size) => Reserve(j, size)
    case Grant(_) => Grant(j)
    case ScanBlocked(_) => ScanBlocked(j)
    case ScanZero(_) => ScanZero(j)
  }

  function Index(a: Action): nat {
    if a.OfConsumer() then 0 else a.i
  }

  /** The producer of `t` that plays the part of producer `i` of `s`. */
  lemma Counterpart(p: Params, s: State, t: State, i: nat) returns (j: nat)
    requires Equiv(p, s, t) && i < |p.quotas|
    ensures j < |p.quotas| && p.quotas[j] == p.quotas[i] && t.producers[j] == s.producers[i]
  {
    var z := Pairs(p.quotas, s.producers)[i];
    assert z in Roles(p.quotas, s.producers);
    assert z in Pairs(p.quotas, t.producers);
    j :| 0 <= j < |p.quotas| && Pairs(p.quotas, t.producers)[j] == z;
  }

  lemma RolesUpdate(qs: seq<nat>, ps: seq<Producer>, i: nat, x: Producer)
    requires |qs| == |ps| && i < |ps|
    ensures Roles(qs, ps[i := x]) == Roles(qs, ps) - multiset{(qs[i], ps[i])} + multiset{(qs[i], x)}
  {
    assert Pairs(qs, ps[i := x]) == Pairs(qs, ps)[i := (qs[i], x)];
  }

  /** Slot `j` of `t` plays the part of slot `i` of `s`, and the two states agree elsewhere. */
  ghost predicate SamePart(p: Params, s: State, t: State, i: nat, j: nat) {
    && Fits(p, s) && Fits(p, t) && t == s.(producers := t.producers)
    && i < |p.quotas| && j < |p.quotas| && p.quotas[i] == p.quotas[j] && s.producers[i] == t.producers[j]
  }

  /** The producer's own step depends on its slot alone and changes its slot alone. */
  lemma SameSlot(p: Params, automatic: bool, s: State, t: State, a: Action, j: nat) returns (x: Producer)
    requires Sized(p) && !a.OfConsumer() && SamePart(p, s, t, a.i, j) && Enabled(p, s, a)
    ensures Enabled(p, t, Relabel(a, j))
    ensures var s', t' := Apply(p, automatic, s, a), Apply(p, automatic, t, Relabel(a, j));
      && s'.producers == s.producers[a.i := x] && t'.producers == t.producers[j := x]
      && t' == s'.(producers := t'.producers)
  {
    assert Pinned(p, s) == Pinned(p, t);
    x := Apply(p, automatic, s, a).producers[a.i];
  }

  lemma SameViolations(p: Params, s: State, t: State, a: Action, j: nat)
    requires Sized(p) && !a.OfConsumer() && SamePart(p, s, t, a.i, j) && Enabled(p, s, a)
    requires Enabled(p, t, Relabel(a, j))
    ensures Violates(p, s, a) <==> Violates(p, t, Relabel(a, j))
  {
    if a.Reserve? {
      forall epoch: nat ensures EntersPinned(p, s, a.size, epoch) <==> EntersPinned(p, t, a.size, epoch) {
        assert Pinned(p, s) == Pinned(p, t);
      }
    }
  }

  /** Steps commute with permutations of equal quotas. */
  lemma Simulates(p: Params, automatic: bool, s: State, t: State, a: Action) returns (b: Action)
    requires Sized(p) && Equiv(p, s, t) && Enabled(p, s, a)
    ensures b == Relabel(a, Index(b)) && Enabled(p, t, b) && (Violates(p, s, a) <==> Violates(p, t, b))
    ensures Equiv(p, Apply(p, automatic, s, a), Apply(p, automatic, t, b))
  {
    if a.OfConsumer() {
      b := a;
    } else {
      var j := Counterpart(p, s, t, a.i);
      b := Relabel(a, j);
      var x := SameSlot(p, automatic, s, t, a, j);
      SameViolations(p, s, t, a, j);
      RolesUpdate(p.quotas, s.producers, a.i, x);
      RolesUpdate(p.quotas, t.producers, j, x);
    }
  }

  // The reduced system.

  function Reduced(p: Params, automatic: bool, s: State, a: Action): (t: State)
    requires Sized(p) && Fits(p, s) && Enabled(p, s, a)
    ensures Fits(p, t)
  {
    var t := Apply(p, automatic, s, a);
    if a.OfConsumer() then t else t.(producers := Canon(p.quotas, t.producers))
  }

  lemma ReducedEquiv(p: Params, automatic: bool, s: State, a: Action)
    requires Sized(p) && Fits(p, s) && Enabled(p, s, a)
    ensures Equiv(p, Apply(p, automatic, s, a), Reduced(p, automatic, s, a))
  {
    CanonRoles(p.quotas, Apply(p, automatic, s, a).producers);
  }

  ghost predicate ReducedRun(p: Params, automatic: bool, s: State, acts: seq<Action>, t: State)
    requires Sized(p) && Fits(p, s)
    decreases |acts|
  {
    if acts == [] then s == t
    else CanStep(p, s, acts[0]) && ReducedRun(p, automatic, Reduced(p, automatic, s, acts[0]), acts[1..], t)
  }

  ghost predicate ReducedReachable(p: Params, automatic: bool, t: State)
    requires Sized(p)
  {
    exists acts: seq<Action> :: ReducedRun(p, automatic, Start(p), acts, t)
  }

  lemma {:induction false} ReducedRunSnoc(p: Params, automatic: bool, s: State, acts: seq<Action>, t: State, a: Action)
    requires Sized(p) && Fits(p, s) && ReducedRun(p, automatic, s, acts, t)
    requires Fits(p, t) && CanStep(p, t, a)
    ensures ReducedRun(p, automatic, s, acts + [a], Reduced(p, automatic, t, a))
    decreases |acts|
  {
    if acts == [] {
      assert [a][1..] == [];
    } else {
      ReducedRunSnoc(p, automatic, Reduced(p, automatic, s, acts[0]), acts[1..], t, a);
      assert (acts + [a])[1..] == acts[1..] + [a];
    }
  }

  lemma {:induction false} RunToReduced(p: Params, automatic: bool, s: State, acts: seq<Action>, t: State, c: State)
      returns (moves: seq<Action>, d: State)
    requires Sized(p) && Equiv(p, s, c) && Run(p, automatic, s, acts, t)
    ensures ReducedRun(p, automatic, c, moves, d) && Equiv(p, t, d) && |moves| == |acts|
    decreases |acts|
  {
    if acts == [] {
      return [], c;
    }
    var b := Simulates(p, automatic, s, c, acts[0]);
    ReducedEquiv(p, automatic, c, b);
    var rest;
    rest, d := RunToReduced(p, automatic, Apply(p, automatic, s, acts[0]), acts[1..], t, Reduced(p, automatic, c, b));
    moves := [b] + rest;
    assert moves[1..] == rest;
  }

  lemma {:induction false} ReducedToRun(p: Params, automatic: bool, c: State, moves: seq<Action>, d: State, s: State)
      returns (acts: seq<Action>, t: State)
    requires Sized(p) && Equiv(p, c, s) && ReducedRun(p, automatic, c, moves, d)
    ensures Run(p, automatic, s, acts, t) && Equiv(p, t, d) && |acts| == |moves|
    decreases |moves|
  {
    if moves == [] {
      return [], s;
    }
    var b := Simulates(p, automatic, c, s, moves[0]);
    ReducedEquiv(p, automatic, c, moves[0]);
    var rest;
    rest, t := ReducedToRun(p, automatic, Reduced(p, automatic, c, moves[0]), moves[1..], d, Apply(p, automatic, s, b));
    acts := [b] + rest;
    assert acts[1..] == rest;
  }

  /** Every reachable state has a permutation the reduced system reaches, and conversely. */
  lemma OrbitsCovered(p: Params, automatic: bool, s: State) returns (c: State)
    requires Sized(p) && Reachable(p, automatic, s)
    ensures ReducedReachable(p, automatic, c) && Equiv(p, s, c)
  {
    var acts: seq<Action> :| Run(p, automatic, Start(p), acts, s);
    var moves;
    moves, c := RunToReduced(p, automatic, Start(p), acts, s, Start(p));
  }

  lemma OrbitsGenuine(p: Params, automatic: bool, c: State) returns (s: State)
    requires Sized(p) && ReducedReachable(p, automatic, c)
    ensures Reachable(p, automatic, s) && Equiv(p, s, c)
  {
    var moves: seq<Action> :| ReducedRun(p, automatic, Start(p), moves, c);
    var acts;
    acts, s := ReducedToRun(p, automatic, Start(p), moves, c, Start(p));
  }

  ghost predicate ReachesViolation(p: Params, automatic: bool, maxWt: nat)
    requires Sized(p)
  {
    exists s: State, a: Action ::
      Reachable(p, automatic, s) && Fits(p, s) && Violates(p, s, a) && s.wt + a.size <= maxWt
  }

  ghost predicate ReducedReachesViolation(p: Params, automatic: bool, maxWt: nat)
    requires Sized(p)
  {
    exists s: State, a: Action ::
      ReducedReachable(p, automatic, s) && Fits(p, s) && Violates(p, s, a) && s.wt + a.size <= maxWt
  }

  /** Symmetry reduction is exact: below any bound on the tail, sorting equal-quota producers
      after each step reaches a violating reservation if and only if not sorting does. */
  lemma SymmetryExact(p: Params, automatic: bool, maxWt: nat)
    requires Sized(p)
    ensures ReachesViolation(p, automatic, maxWt) <==> ReducedReachesViolation(p, automatic, maxWt)
  {
    if ReachesViolation(p, automatic, maxWt) {
      var s: State, a: Action :|
        Reachable(p, automatic, s) && Fits(p, s) && Violates(p, s, a) && s.wt + a.size <= maxWt;
      var c := OrbitsCovered(p, automatic, s);
      var b := Simulates(p, automatic, s, c, a);
      assert Violates(p, c, b) && c.wt + b.size <= maxWt;
    }
    if ReducedReachesViolation(p, automatic, maxWt) {
      var c: State, a: Action :|
        ReducedReachable(p, automatic, c) && Fits(p, c) && Violates(p, c, a) && c.wt + a.size <= maxWt;
      var s := OrbitsGenuine(p, automatic, c);
      assert Equiv(p, c, s);
      var b := Simulates(p, automatic, c, s, a);
      assert Violates(p, s, b) && s.wt + b.size <= maxWt;
    }
  }

  /** Nothing is visited twice: reduced-reachable states in the same orbit are equal. */
  lemma OneStatePerOrbit(p: Params, automatic: bool, s: State, t: State)
    requires Sized(p) && ReducedReachable(p, automatic, s) && ReducedReachable(p, automatic, t)
    requires Equiv(p, s, t)
    ensures s == t
  {
    var acts: seq<Action> :| ReducedRun(p, automatic, Start(p), acts, s);
    var moves: seq<Action> :| ReducedRun(p, automatic, Start(p), moves, t);
    StartSorted(p.quotas, Start(p).producers);
    ReducedKeepsOrder(p, automatic, Start(p), acts, s);
    ReducedKeepsOrder(p, automatic, Start(p), moves, t);
    CanonUnique(p.quotas, s.producers, s.producers);
    CanonUnique(p.quotas, s.producers, t.producers);
  }

  ghost predicate InOrder(p: Params, s: State) {
    Fits(p, s) && forall q :: Sorted(Class(p.quotas, s.producers, q))
  }

  lemma {:induction false} StartSorted(qs: seq<nat>, ps: seq<Producer>)
    requires |qs| == |ps| && forall i :: 0 <= i < |ps| ==> ps[i] == Producer(0, 0, 0)
    ensures forall q :: Sorted(Class(qs, ps, q)) && forall x :: x in Class(qs, ps, q) ==> x == Producer(0, 0, 0)
  {
    if qs == [] {
    } else {
      StartSorted(qs[1..], ps[1..]);
    }
  }

  lemma {:induction false} ReducedKeepsOrder(p: Params, automatic: bool, s: State, acts: seq<Action>, t: State)
    requires Sized(p) && InOrder(p, s) && ReducedRun(p, automatic, s, acts, t)
    ensures InOrder(p, t)
    decreases |acts|
  {
    if acts == [] {
    } else {
      var ps := Apply(p, automatic, s, acts[0]).producers;
      forall q ensures Sorted(Class(p.quotas, Canon(p.quotas, ps), q)) {
        CanonClass(p.quotas, ps, q);
        SortFacts(Class(p.quotas, ps, q));
      }
      ReducedKeepsOrder(p, automatic, Reduced(p, automatic, s, acts[0]), acts[1..], t);
    }
  }
}
