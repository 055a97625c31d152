/** The breadth-first explorer of the quota model: what each of its three answers means, for
    every configuration, lap bound and state limit. */
module QuotaExplorer {
  import opened Options
  import opened QuotaProtocol
  import opened QuotaSymmetry
  import opened QuotaDepth
  import QuotaSafety
  import QuotaLiveness

  datatype Line =
    | Took(a: Action)
    | Entered(i: nat, wt: nat, end: nat, epoch: nat, oldest: nat, newest: nat)

  datatype Outcome =
    | Counterexample(states: nat, edges: nat, trace: seq<Line>)
    | StateLimit(states: nat, edges: nat)
    | BoundedPass(states: nat, edges: nat, maxWt: nat)

  datatype Expansion =
    | Found(i: nat, size: nat, epoch: nat)
    | Successors(next: seq<(State, Action)>)

  type Predecessors = map<State, Option<(State, Action)>>

  // The moves of a state, in the order the explorer generates them.

  function Reserves(p: Params, s: State, i: nat, maxWt: nat): (r: seq<Action>)
    requires i < |s.producers|
  {
    var room := if maxWt < s.wt then 0 else maxWt - s.wt;
    var count := if s.producers[i].balance <= room then s.producers[i].balance else room;
    seq(count, n requires 0 <= n < count => Reserve(i, n + 1))
  }

  function ProducerMoves(p: Params, s: State, i: nat, maxWt: nat): seq<Action>
    requires Sized(p) && Fits(p, s) && i < |s.producers|
  {
    if s.producers[i].step == 0 then [Probe(i)] + Reserves(p, s, i, maxWt)
    else if s.producers[i].step == Need(p) + 1 then [Grant(i)]
    else if NextSlot(p, s, i) in Pinned(p, s) then [ScanBlocked(i)]
    else [ScanZero(i)]
  }

  function ConsumerMoves(p: Params, s: State): seq<Action>
    requires Sized(p)
  {
    (if s.newest < s.wt / p.cap then [PinAhead] else []) + (if s.oldest < s.newest then [DropOldest] else [])
  }

  function Flatten(lists: seq<seq<Action>>): seq<Action> {
    if lists == [] then [] else Flatten(lists[..|lists| - 1]) + lists[|lists| - 1]
  }

  lemma {:induction false} FlattenMember(lists: seq<seq<Action>>, a: Action)
    ensures a in Flatten(lists) <==> exists i :: 0 <= i < |lists| && a in lists[i]
  {
    if lists == [] {
    } else {
      FlattenMember(lists[..|lists| - 1], a);
      assert forall i :: 0 <= i < |lists| - 1 ==> lists[..|lists| - 1][i] == lists[i];
    }
  }

  function MoveLists(p: Params, s: State, n: nat, maxWt: nat): (lists: seq<seq<Action>>)
    requires Sized(p) && Fits(p, s) && n <= |s.producers|
    ensures |lists| == n && forall i :: 0 <= i < n ==> lists[i] == ProducerMoves(p, s, i, maxWt)
  {
    seq(n, i requires 0 <= i < n => ProducerMoves(p, s, i, maxWt))
  }

  /** The moves of the consumer and of the first `n` producers. */
  function MovesUpTo(p: Params, s: State, n: nat, maxWt: nat): seq<Action>
    requires Sized(p) && Fits(p, s) && n <= |s.producers|
  {
    ConsumerMoves(p, s) + Flatten(MoveLists(p, s, n, maxWt))
  }

  lemma MovesUpToNext(p: Params, s: State, n: nat, maxWt: nat)
    requires Sized(p) && Fits(p, s) && n < |s.producers|
    ensures MovesUpTo(p, s, n + 1, maxWt) == MovesUpTo(p, s, n, maxWt) + ProducerMoves(p, s, n, maxWt)
  {
    assert MoveLists(p, s, n + 1, maxWt)[..n] == MoveLists(p, s, n, maxWt);
  }

  function Moves(p: Params, s: State, maxWt: nat): seq<Action>
    requires Sized(p) && Fits(p, s)
  {
    MovesUpTo(p, s, |s.producers|, maxWt)
  }

  ghost predicate Within(s: State, a: Action, maxWt: nat) {
    a.Reserve? ==> s.wt + a.size <= maxWt
  }

  lemma ProducerMovesExact(p: Params, s: State, i: nat, maxWt: nat, a: Action)
    requires Sized(p) && Fits(p, s) && i < |s.producers|
    ensures a in ProducerMoves(p, s, i, maxWt) <==>
            !a.OfConsumer() && a.i == i && Enabled(p, s, a) && Within(s, a, maxWt)
  {
    var all := Reserves(p, s, i, maxWt);
    if a.Reserve? && a.i == i && Enabled(p, s, a) && Within(s, a, maxWt) {
      assert all[a.size - 1] == a;
    }
    if s.producers[i].step == 0 {
      assert a in ProducerMoves(p, s, i, maxWt) <==> a == Probe(i) || a in all;
    }
  }

  lemma ConsumerMovesExact(p: Params, s: State, a: Action)
    requires Sized(p) && Fits(p, s)
    ensures a in ConsumerMoves(p, s) <==> a.OfConsumer() && Enabled(p, s, a)
  {
  }

  /** The generated moves are exactly the enabled ones whose reservation stays in the bound. */
  lemma MovesExact(p: Params, s: State, maxWt: nat)
    requires Sized(p) && Fits(p, s)
    ensures forall a :: a in Moves(p, s, maxWt) <==> Enabled(p, s, a) && Within(s, a, maxWt)
  {
    forall a ensures a in Moves(p, s, maxWt) <==> Enabled(p, s, a) && Within(s, a, maxWt) {
      MoveExact(p, s, maxWt, a);
    }
  }

  lemma MoveExact(p: Params, s: State, maxWt: nat, a: Action)
    requires Sized(p) && Fits(p, s)
    ensures a in Moves(p, s, maxWt) <==> Enabled(p, s, a) && Within(s, a, maxWt)
  {
    var lists := MoveLists(p, s, |s.producers|, maxWt);
    FlattenMember(lists, a);
    ConsumerMovesExact(p, s, a);
    if a in Flatten(lists) {
      var i :| 0 <= i < |lists| && a in lists[i];
      ProducerMovesExact(p, s, i, maxWt, a);
    } else if !a.OfConsumer() && a.i < |lists| {
      assert a !in lists[a.i];
      ProducerMovesExact(p, s, a.i, maxWt, a);
    }
  }

  /** The order of generation: the consumer's moves, then producer by producer a probe and the
      reservations by size. */
  predicate Earlier(a: Action, b: Action) {
    if a.OfConsumer() then (a.PinAhead? && !b.PinAhead?) || !b.OfConsumer()
    else
      && !b.OfConsumer()
      && (a.i < b.i || (a.i == b.i && b.Reserve? && (a.Probe? || (a.Reserve? && a.size < b.size))))
  }

  ghost predicate Sequenced(moves: seq<Action>) {
    forall i: nat, j: nat :: i < j < |moves| ==> Earlier(moves[i], moves[j])
  }

  lemma OrderedAppend(a: seq<Action>, b: seq<Action>)
    requires Sequenced(a) && Sequenced(b) && forall x, y :: x in a && y in b ==> Earlier(x, y)
    ensures Sequenced(a + b)
  {
    var c := a + b;
    forall i: nat, j: nat | i < j < |c| ensures Earlier(c[i], c[j]) {
      if i >= |a| {
        assert c[i] == b[i - |a|] && c[j] == b[j - |a|];
      } else if j >= |a| {
        assert c[i] in a && c[j] in b;
      }
    }
  }

  lemma ProducerMovesOrdered(p: Params, s: State, i: nat, maxWt: nat)
    requires Sized(p) && Fits(p, s) && i < |s.producers|
    ensures Sequenced(ProducerMoves(p, s, i, maxWt))
    ensures forall a :: a in ProducerMoves(p, s, i, maxWt) ==> !a.OfConsumer() && a.i == i
  {
    forall a ensures a in ProducerMoves(p, s, i, maxWt) ==> !a.OfConsumer() && a.i == i {
      ProducerMovesExact(p, s, i, maxWt, a);
    }
  }

  /** Nothing of producer `n` comes before what the consumer or a lower producer does. */
  predicate OfLower(moves: seq<Action>, n: nat) {
    forall a :: a in moves ==> a.OfConsumer() || a.i < n
  }

  lemma OrderedNext(before: seq<Action>, more: seq<Action>, n: nat)
    requires Sequenced(before) && Sequenced(more) && OfLower(before, n)
    requires forall a :: a in more ==> !a.OfConsumer() && a.i == n
    ensures Sequenced(before + more) && OfLower(before + more, n + 1)
  {
    OrderedAppend(before, more);
  }

  lemma {:induction false} MovesUpToOrdered(p: Params, s: State, n: nat, maxWt: nat)
    requires Sized(p) && Fits(p, s) && n <= |s.producers|
    ensures Sequenced(MovesUpTo(p, s, n, maxWt)) && OfLower(MovesUpTo(p, s, n, maxWt), n)
  {
    if n == 0 {
      assert MovesUpTo(p, s, 0, maxWt) == ConsumerMoves(p, s);
    } else {
      MovesUpToOrdered(p, s, n - 1, maxWt);
      MovesUpToNext(p, s, n - 1, maxWt);
      ProducerMovesOrdered(p, s, n - 1, maxWt);
      OrderedNext(MovesUpTo(p, s, n - 1, maxWt), ProducerMoves(p, s, n - 1, maxWt), n - 1);
    }
  }

  /** Each enabled action within the bound is generated once, in the order of the source. */
  lemma MovesOrdered(p: Params, s: State, maxWt: nat)
    requires Sized(p) && Fits(p, s)
    ensures Sequenced(Moves(p, s, maxWt))
    ensures forall a :: a in Moves(p, s, maxWt) <==> Enabled(p, s, a) && Within(s, a, maxWt)
  {
    MovesUpToOrdered(p, s, |s.producers|, maxWt);
    MovesExact(p, s, maxWt);
  }

  // Canonical order, computed class by class in any order of the classes.

  /** How many of the first `j` producers have quota `q`. */
  function Rank(qs: seq<nat>, j: nat, q: nat): nat
    requires j <= |qs|
  {
    if j == 0 then 0 else Rank(qs, j - 1, q) + if qs[j - 1] == q then 1 else 0
  }

  lemma {:induction false} RankTail(qs: seq<nat>, j: nat, q: nat)
    requires 1 <= j <= |qs|
    ensures Rank(qs, j, q) == Rank(qs[1..], j - 1, q) + if qs[0] == q then 1 else 0
  {
    if j <= 1 {
    } else {
      RankTail(qs, j - 1, q);
      assert qs[1..][j - 2] == qs[j - 1];
    }
  }

  lemma {:induction false} PutClassAt(qs: seq<nat>, ps: seq<Producer>, q: nat, vals: seq<Producer>, j: nat)
    requires |qs| == |ps| && |vals| == |Class(qs, ps, q)| && j < |qs|
    ensures qs[j] == q ==> Rank(qs, j, q) < |vals|
    ensures PutClass(qs, ps, q, vals)[j] == if qs[j] == q then vals[Rank(qs, j, q)] else ps[j]
  {
    if j == 0 {
    } else {
      RankTail(qs, j, q);
      PutClassAt(qs[1..], ps[1..], q, if qs[0] == q then vals[1..] else vals, j - 1);
    }
  }

  method SortOneClass(quotas: seq<nat>, producers: seq<Producer>, q: nat) returns (ps: seq<Producer>)
    requires |quotas| == |producers|
    ensures ps == SortClass(quotas, producers, q)
  {
    ps := producers;
    var ordered := Sort(Class(quotas, producers, q));
    var rank := 0;
    ghost var sorted := SortClass(quotas, producers, q);
    for j := 0 to |quotas|
      invariant |ps| == |quotas| && rank == Rank(quotas, j, q)
      invariant forall i :: 0 <= i < |ps| ==> ps[i] == if i < j then sorted[i] else producers[i]
    {
      PutClassAt(quotas, producers, q, ordered, j);
      if quotas[j] == q {
        ps := ps[j := ordered[rank]];
        rank := rank + 1;
      }
    }
  }

  /** Classes outside `todo` are sorted and the others as they were. */
  ghost predicate SortedOutside(quotas: seq<nat>, producers: seq<Producer>, ps: seq<Producer>, todo: set<nat>)
    requires |quotas| == |producers|
  {
    && |ps| == |quotas|
    && forall q :: SortedUnless(quotas, producers, ps, q, q in todo)
  }

  ghost predicate SortedUnless(quotas: seq<nat>, producers: seq<Producer>, ps: seq<Producer>, q: nat, waiting: bool)
    requires |quotas| == |producers| == |ps|
  {
    Class(quotas, ps, q) == if waiting then Class(quotas, producers, q) else Sort(Class(quotas, producers, q))
  }

  lemma SortedOutsideStart(quotas: seq<nat>, producers: seq<Producer>)
    requires |quotas| == |producers|
    ensures SortedOutside(quotas, producers, producers, set q | q in quotas)
  {
    forall q ensures SortedUnless(quotas, producers, producers, q, q in quotas) {
      if q !in quotas {
        ClassEmpty(quotas, producers, q);
      }
    }
  }

  lemma SortedOutsideStep(quotas: seq<nat>, producers: seq<Producer>, ps: seq<Producer>, todo: set<nat>, q: nat)
    requires |quotas| == |producers| && SortedOutside(quotas, producers, ps, todo) && q in todo
    ensures SortedOutside(quotas, producers, SortClass(quotas, ps, q), todo - {q})
  {
    forall r ensures SortedUnless(quotas, producers, SortClass(quotas, ps, q), r, r in todo - {q}) {
      assert SortedUnless(quotas, producers, ps, r, r in todo);
      PutClassClass(quotas, ps, q, Sort(Class(quotas, ps, q)), r);
    }
  }

  lemma SortedOutsideDone(quotas: seq<nat>, producers: seq<Producer>, ps: seq<Producer>, todo: set<nat>)
    requires |quotas| == |producers| && SortedOutside(quotas, producers, ps, todo) && todo == {}
    ensures ps == Canon(quotas, producers)
  {
    forall q
      ensures Sorted(Class(quotas, ps, q)) && multiset(Class(quotas, ps, q)) == multiset(Class(quotas, producers, q))
    {
      assert SortedUnless(quotas, producers, ps, q, q in todo);
      SortFacts(Class(quotas, producers, q));
    }
    RolesFromClasses(quotas, producers, ps);
    CanonUnique(quotas, producers, ps);
  }

  method Canonical(quotas: seq<nat>, producers: seq<Producer>) returns (ps: seq<Producer>)
    requires |quotas| == |producers|
    ensures ps == Canon(quotas, producers)
  {
    ps := producers;
    var todo := set q | q in quotas;
    SortedOutsideStart(quotas, producers);
    while todo != {}
      invariant SortedOutside(quotas, producers, ps, todo)
      decreases todo
    {
      var q :| q in todo;
      SortedOutsideStep(quotas, producers, ps, todo, q);
      ps := SortOneClass(quotas, ps, q);
      todo := todo - {q};
    }
    SortedOutsideDone(quotas, producers, ps, todo);
  }

  method Changed(p: Params, s: State, i: nat, q: Producer, tail: nat) returns (t: State)
    requires Fits(p, s) && i < |s.producers|
    ensures t == State(tail, s.oldest, s.newest, Canon(p.quotas, s.producers[i := q]))
  {
    var ps := Canonical(p.quotas, s.producers[..i] + [q] + s.producers[i + 1..]);
    assert s.producers[i := q] == s.producers[..i] + [q] + s.producers[i + 1..];
    t := State(tail, s.oldest, s.newest, ps);
  }

  // One state's expansion.

  /** `next` pairs each action of `moves` with the reduced successor it leads to. */
  ghost predicate Follows(p: Params, automatic: bool, s: State, moves: seq<Action>, next: seq<(State, Action)>)
    requires Sized(p) && Fits(p, s)
  {
    && |next| == |moves|
    && forall j :: 0 <= j < |next| ==> FollowsAt(p, automatic, s, moves, next, j)
  }

  ghost predicate FollowsAt(p: Params, automatic: bool, s: State, moves: seq<Action>, next: seq<(State, Action)>,
                            j: nat)
    requires Sized(p) && Fits(p, s) && j < |next| == |moves|
  {
    CanStep(p, s, moves[j]) && next[j] == (Reduced(p, automatic, s, moves[j]), moves[j])
  }

  ghost predicate IsViolation(p: Params, s: State, maxWt: nat, i: nat, size: nat, epoch: nat)
    requires Sized(p) && Fits(p, s)
  {
    Enabled(p, s, Reserve(i, size)) && s.wt + size <= maxWt && EntersPinned(p, s, size, epoch)
  }

  /** `epoch` is the first pinned epoch that the reservation enters. */
  ghost predicate FirstEntered(p: Params, s: State, maxWt: nat, i: nat, size: nat, epoch: nat)
    requires Sized(p) && Fits(p, s)
  {
    IsViolation(p, s, maxWt, i, size, epoch) && forall e: nat :: e < epoch ==> !EntersPinned(p, s, size, e)
  }

  /** No reservation of producer `j` below `size` violates within the bound. */
  ghost predicate CleanBelow(p: Params, s: State, maxWt: nat, j: nat, size: nat)
    requires Sized(p) && Fits(p, s)
  {
    forall n: nat :: n < size && s.wt + n <= maxWt ==> !Violates(p, s, Reserve(j, n))
  }

  /** The violation that the generation comes to first. */
  ghost predicate FirstViolation(p: Params, s: State, maxWt: nat, i: nat, size: nat, epoch: nat)
    requires Sized(p) && Fits(p, s)
  {
    && FirstEntered(p, s, maxWt, i, size, epoch) && CleanBelow(p, s, maxWt, i, size)
    && forall j: nat, n: nat :: j < i ==> CleanBelow(p, s, maxWt, j, n)
  }

  lemma FollowsClean(p: Params, automatic: bool, s: State, moves: seq<Action>, next: seq<(State, Action)>, a: Action)
    requires Sized(p) && Fits(p, s) && Follows(p, automatic, s, moves, next) && a in moves
    ensures !Violates(p, s, a)
  {
    var j :| 0 <= j < |moves| && moves[j] == a;
    assert FollowsAt(p, automatic, s, moves, next, j);
  }

  lemma ReservesClean(p: Params, automatic: bool, s: State, i: nat, maxWt: nat, size: nat, next: seq<(State, Action)>)
    requires Sized(p) && Fits(p, s) && i < |s.producers| && 1 <= size <= |Reserves(p, s, i, maxWt)|
    requires Follows(p, automatic, s, Reserves(p, s, i, maxWt)[..size - 1], next)
    ensures CleanBelow(p, s, maxWt, i, size)
  {
    forall n: nat | n < size && s.wt + n <= maxWt ensures !Violates(p, s, Reserve(i, n)) {
      if n > 0 {
        assert Reserves(p, s, i, maxWt)[..size - 1][n - 1] == Reserve(i, n);
        FollowsClean(p, automatic, s, Reserves(p, s, i, maxWt)[..size - 1], next, Reserve(i, n));
      }
    }
  }

  lemma LowerClean(p: Params, automatic: bool, s: State, i: nat, maxWt: nat, next: seq<(State, Action)>)
    requires Sized(p) && Fits(p, s) && i <= |s.producers|
    requires Follows(p, automatic, s, MovesUpTo(p, s, i, maxWt), next)
    ensures forall j: nat, n: nat :: j < i ==> CleanBelow(p, s, maxWt, j, n)
  {
    forall j: nat, n: nat | j < i ensures CleanBelow(p, s, maxWt, j, n) {
      forall m: nat | m < n && s.wt + m <= maxWt ensures !Violates(p, s, Reserve(j, m)) {
        if Enabled(p, s, Reserve(j, m)) {
          LowerMove(p, s, i, maxWt, Reserve(j, m));
          FollowsClean(p, automatic, s, MovesUpTo(p, s, i, maxWt), next, Reserve(j, m));
        }
      }
    }
  }

  lemma LowerMove(p: Params, s: State, i: nat, maxWt: nat, a: Action)
    requires Sized(p) && Fits(p, s) && i <= |s.producers| && Enabled(p, s, a) && Within(s, a, maxWt)
    requires !a.OfConsumer() && a.i < i
    ensures a in MovesUpTo(p, s, i, maxWt)
  {
    var lists := MoveLists(p, s, i, maxWt);
    ProducerMovesExact(p, s, a.i, maxWt, a);
    assert a in lists[a.i];
    FlattenMember(lists, a);
  }

  /** The smallest epoch the reservation enters that is still pinned, if any. */
  method FirstPinned(p: Params, s: State, size: nat) returns (r: Option<nat>)
    requires Sized(p)
    ensures r.Some? ==>
              EntersPinned(p, s, size, r.value) && forall e: nat :: e < r.value ==> !EntersPinned(p, s, size, e)
    ensures r == None ==> forall e: nat :: !EntersPinned(p, s, size, e)
  {
    var pinned := Pinned(p, s);
    var epoch := s.wt / p.cap + 1;
    while epoch <= (s.wt + size) / p.cap
      invariant forall e: nat :: e < epoch ==> !EntersPinned(p, s, size, e)
    {
      if epoch % p.k in pinned {
        return Some(epoch);
      }
      epoch := epoch + 1;
    }
    r := None;
  }

  lemma FollowsOne(p: Params, automatic: bool, s: State, a: Action, t: State)
    requires Sized(p) && Fits(p, s) && CanStep(p, s, a) && t == Reduced(p, automatic, s, a)
    ensures Follows(p, automatic, s, [a], [(t, a)])
  {
  }

  lemma FollowsMore(p: Params, automatic: bool, s: State, moves: seq<Action>, next: seq<(State, Action)>,
                    moves': seq<Action>, next': seq<(State, Action)>)
    requires Sized(p) && Fits(p, s) && Follows(p, automatic, s, moves, next) && Follows(p, automatic, s, moves', next')
    ensures Follows(p, automatic, s, moves + moves', next + next')
  {
    var both, all := moves + moves', next + next';
    forall j | 0 <= j < |all|
      ensures FollowsAt(p, automatic, s, both, all, j)
    {
      if j < |next| {
        assert FollowsAt(p, automatic, s, moves, next, j);
      } else {
        assert FollowsAt(p, automatic, s, moves', next', j - |next|);
      }
    }
  }

  lemma NoneEntered(p: Params, s: State, i: nat, size: nat)
    requires Sized(p) && Fits(p, s) && forall e: nat :: !EntersPinned(p, s, size, e)
    ensures !Violates(p, s, Reserve(i, size))
  {
  }

  lemma ReserveReduced(p: Params, s: State, automatic: bool, i: nat, size: nat, remaining: nat, t: State)
    requires Sized(p) && Fits(p, s) && Enabled(p, s, Reserve(i, size))
    requires remaining == if automatic then p.quotas[i] else s.producers[i].balance - size
    requires t == State(s.wt + size, s.oldest, s.newest, Canon(p.quotas, s.producers[i := Producer(remaining, 0, 0)]))
    ensures t == Reduced(p, automatic, s, Reserve(i, size))
  {
  }

  method ExpandReserve(p: Params, s: State, automatic: bool, maxWt: nat, i: nat, size: nat) returns (r: Expansion)
    requires Sized(p) && Fits(p, s) && Enabled(p, s, Reserve(i, size)) && s.wt + size <= maxWt
    ensures r.Found? ==> r.i == i && r.size == size && FirstEntered(p, s, maxWt, i, size, r.epoch)
    ensures r.Successors? ==> Follows(p, automatic, s, [Reserve(i, size)], r.next)
  {
    var hit := FirstPinned(p, s, size);
    if hit.Some? {
      return Found(i, size, hit.value);
    }
    var remaining := if automatic then p.quotas[i] else s.producers[i].balance - size;
    var t := Changed(p, s, i, Producer(remaining, 0, 0), s.wt + size);
    NoneEntered(p, s, i, size);
    ReserveReduced(p, s, automatic, i, size, remaining, t);
    FollowsOne(p, automatic, s, Reserve(i, size), t);
    r := Successors([(t, Reserve(i, size))]);
  }

  /** The reservations of producer `i` from the smallest up. */
  method ExpandReserves(p: Params, s: State, automatic: bool, maxWt: nat, i: nat) returns (r: Expansion)
    requires Sized(p) && Fits(p, s) && i < |s.producers| && s.producers[i].step == 0
    ensures r.Found? ==>
              r.i == i && FirstEntered(p, s, maxWt, i, r.size, r.epoch) && CleanBelow(p, s, maxWt, i, r.size)
    ensures r.Successors? ==> Follows(p, automatic, s, Reserves(p, s, i, maxWt), r.next)
  {
    var next := [];
    ghost var all := Reserves(p, s, i, maxWt);
    for size := 1 to s.producers[i].balance + 1
      invariant |next| == if size - 1 <= |all| then size - 1 else |all|
      invariant Follows(p, automatic, s, all[..|next|], next)
    {
      if s.wt + size > maxWt {
        continue;
      }
      var more := ExpandReserve(p, s, automatic, maxWt, i, size);
      if more.Found? {
        ReservesClean(p, automatic, s, i, maxWt, size, next);
        return more;
      }
      assert all[..size] == all[..size - 1] + [Reserve(i, size)];
      FollowsMore(p, automatic, s, all[..size - 1], next, [Reserve(i, size)], more.next);
      next := next + more.next;
    }
    assert all[..|next|] == all;
    r := Successors(next);
  }

  method ExpandConsumer(p: Params, s: State, automatic: bool) returns (next: seq<(State, Action)>)
    requires Sized(p) && Fits(p, s)
    ensures Follows(p, automatic, s, ConsumerMoves(p, s), next)
  {
    next := [];
    if s.newest < s.wt / p.cap {
      next := next + [(s.(newest := s.newest + 1), PinAhead)];
    }
    if s.oldest < s.newest {
      next := next + [(s.(oldest := s.oldest + 1), DropOldest)];
    }
  }

  method ProbeMove(p: Params, s: State, automatic: bool, i: nat) returns (t: State)
    requires Sized(p) && Fits(p, s) && Enabled(p, s, Probe(i))
    ensures t == Reduced(p, automatic, s, Probe(i))
  {
    t := Changed(p, s, i, Producer(s.producers[i].balance, s.wt / p.cap, 1), s.wt);
  }

  /** The one move of a producer whose scan is under way. */
  method ScanMove(p: Params, s: State, automatic: bool, i: nat) returns (t: State, a: Action)
    requires Sized(p) && Fits(p, s) && i < |s.producers| && s.producers[i].step != 0
    ensures Enabled(p, s, a) && (a == Grant(i) || a == ScanBlocked(i) || a == ScanZero(i))
    ensures t == Reduced(p, automatic, s, a)
  {
    var q := s.producers[i];
    if q.step == Need(p) + 1 {
      a := Grant(i);
      t := Changed(p, s, i, Producer(p.quotas[i], 0, 0), s.wt);
    } else if (q.anchor + q.step) % p.k in Pinned(p, s) {
      a := ScanBlocked(i);
      t := Changed(p, s, i, Producer(q.balance, 0, 0), s.wt);
    } else {
      a := ScanZero(i);
      t := Changed(p, s, i, Producer(q.balance, q.anchor, q.step + 1), s.wt);
    }
  }

  method ExpandProducer(p: Params, s: State, automatic: bool, maxWt: nat, i: nat) returns (r: Expansion)
    requires Sized(p) && Fits(p, s) && i < |s.producers|
    ensures r.Found? ==>
              r.i == i && FirstEntered(p, s, maxWt, i, r.size, r.epoch) && CleanBelow(p, s, maxWt, i, r.size)
    ensures r.Successors? ==> Follows(p, automatic, s, ProducerMoves(p, s, i, maxWt), r.next)
  {
    if s.producers[i].step == 0 {
      var t := ProbeMove(p, s, automatic, i);
      r := ExpandReserves(p, s, automatic, maxWt, i);
      if r.Successors? {
        FollowsOne(p, automatic, s, Probe(i), t);
        FollowsMore(p, automatic, s, [Probe(i)], [(t, Probe(i))], Reserves(p, s, i, maxWt), r.next);
        r := Successors([(t, Probe(i))] + r.next);
      }
    } else {
      var t, a := ScanMove(p, s, automatic, i);
      assert ProducerMoves(p, s, i, maxWt) == [a];
      FollowsOne(p, automatic, s, a, t);
      r := Successors([(t, a)]);
    }
  }

  method Expand(p: Params, s: State, automatic: bool, maxWt: nat) returns (r: Expansion)
    requires Sized(p) && Fits(p, s)
    ensures r.Found? ==> FirstViolation(p, s, maxWt, r.i, r.size, r.epoch)
    ensures r.Successors? ==> Follows(p, automatic, s, Moves(p, s, maxWt), r.next)
  {
    var next := ExpandConsumer(p, s, automatic);
    assert MovesUpTo(p, s, 0, maxWt) == ConsumerMoves(p, s);
    for i := 0 to |s.producers|
      invariant Follows(p, automatic, s, MovesUpTo(p, s, i, maxWt), next)
    {
      var more := ExpandProducer(p, s, automatic, maxWt, i);
      if more.Found? {
        LowerClean(p, automatic, s, i, maxWt, next);
        return more;
      }
      FollowsMore(p, automatic, s, MovesUpTo(p, s, i, maxWt), next, ProducerMoves(p, s, i, maxWt), more.next);
      MovesUpToNext(p, s, i, maxWt);
      next := next + more.next;
    }
    r := Successors(next);
  }

  // The search tree.

  /** `order` lists the discovered states; each but the start was reached by a step from an
      earlier one. */
  ghost predicate Discovered(p: Params, automatic: bool, maxWt: nat, pred: Predecessors, order: seq<State>)
    requires Sized(p)
  {
    && order != [] && order[0] == Start(p)
    && pred.Keys == Elements(order)
    && |pred| == |order|
    && forall j :: 0 <= j < |order| ==> LinkedBack(p, automatic, maxWt, pred, order, j)
  }

  ghost predicate LinkedBack(p: Params, automatic: bool, maxWt: nat, pred: Predecessors, order: seq<State>, j: nat)
    requires Sized(p) && j < |order|
  {
    && order[j] in pred && Fits(p, order[j]) && order[j].wt <= maxWt
    && if j == 0 then pred[order[j]] == None
       else
         && pred[order[j]].Some?
         && var (u, a) := pred[order[j]].value;
            u in order[..j] && Fits(p, u) && CanStep(p, u, a) && order[j] == Reduced(p, automatic, u, a)
  }

  ghost function Elements(order: seq<State>): set<State> {
    set s | s in order
  }

  /** A state listed twice leaves fewer members than positions. */
  lemma DuplicateShrinks(order: seq<State>, i: nat, j: nat)
    requires i < j < |order| && order[i] == order[j]
    ensures |Elements(order)| < |order|
  {
    var rest := order[..j] + order[j + 1..];
    ElementsSize(rest);
    assert Elements(order) == Elements(rest) by {
      forall s | s in order ensures s in rest {
        var n :| 0 <= n < |order| && order[n] == s;
        assert s == rest[if n == j then i else if n < j then n else n - 1];
      }
    }
  }

  lemma {:induction false} ElementsSize(order: seq<State>)
    ensures |Elements(order)| <= |order|
  {
    if order == [] {
    } else {
      ElementsSize(order[1..]);
      assert Elements(order) == Elements(order[1..]) + {order[0]};
    }
  }

  lemma DiscoveredFits(p: Params, automatic: bool, maxWt: nat, pred: Predecessors, order: seq<State>, s: State)
    requires Sized(p) && Discovered(p, automatic, maxWt, pred, order) && s in order
    ensures Fits(p, s) && s.wt <= maxWt && s in pred
  {
    var j :| 0 <= j < |order| && order[j] == s;
    assert LinkedBack(p, automatic, maxWt, pred, order, j);
  }

  /** A state whose moves all lead to discovered states and none of which violates. */
  ghost predicate Closed(p: Params, automatic: bool, maxWt: nat, known: set<State>, s: State)
    requires Sized(p)
  {
    Fits(p, s) && forall a :: Enabled(p, s, a) && Within(s, a, maxWt) ==>
      !Violates(p, s, a) && Reduced(p, automatic, s, a) in known
  }

  function EdgeCount(p: Params, maxWt: nat, order: seq<State>): nat
    requires Sized(p) && forall s :: s in order ==> Fits(p, s)
  {
    if order == [] then 0
    else EdgeCount(p, maxWt, order[..|order| - 1]) + |Moves(p, order[|order| - 1], maxWt)|
  }

  lemma {:induction false} DiscoveredReachable(p: Params, automatic: bool, maxWt: nat, pred: Predecessors,
                                               order: seq<State>, j: nat)
      returns (acts: seq<Action>)
    requires Sized(p) && Discovered(p, automatic, maxWt, pred, order) && j < |order|
    ensures ReducedRun(p, automatic, Start(p), acts, order[j])
    decreases j
  {
    if j == 0 {
      return [];
    }
    assert LinkedBack(p, automatic, maxWt, pred, order, j);
    var (u, a) := pred[order[j]].value;
    var i :| 0 <= i < j && order[i] == u;
    acts := DiscoveredReachable(p, automatic, maxWt, pred, order, i);
    ReducedRunSnoc(p, automatic, Start(p), acts, u, a);
    acts := acts + [a];
  }

  lemma {:induction false} ReducedRunMonotone(p: Params, automatic: bool, s: State, acts: seq<Action>, t: State)
    requires Sized(p) && Fits(p, s) && ReducedRun(p, automatic, s, acts, t)
    ensures Fits(p, t) && s.wt <= t.wt
    decreases |acts|
  {
    if acts == [] {
    } else {
      ReducedRunMonotone(p, automatic, Reduced(p, automatic, s, acts[0]), acts[1..], t);
    }
  }

  /** A closed set of states holds every bounded run that starts inside it. */
  lemma {:induction false} ClosedHoldsRuns(p: Params, automatic: bool, maxWt: nat, known: set<State>,
                                           s: State, acts: seq<Action>, t: State)
    requires Sized(p) && (forall u :: u in known ==> Closed(p, automatic, maxWt, known, u))
    requires s in known && Fits(p, s) && ReducedRun(p, automatic, s, acts, t) && t.wt <= maxWt
    ensures t in known
    decreases |acts|
  {
    if acts == [] {
    } else {
      var u := Reduced(p, automatic, s, acts[0]);
      ReducedRunMonotone(p, automatic, u, acts[1..], t);
      ClosedHoldsRuns(p, automatic, maxWt, known, u, acts[1..], t);
    }
  }

  function TookAll(acts: seq<Action>): (r: seq<Line>)
    ensures |r| == |acts| && forall i :: 0 <= i < |r| ==> r[i] == Took(acts[i])
  {
    seq(|acts|, i requires 0 <= i < |acts| => Took(acts[i]))
  }

  function Reversed(s: seq<Line>): (r: seq<Line>)
    ensures |r| == |s| && forall i :: 0 <= i < |r| ==> r[i] == s[|s| - 1 - i]
  {
    seq(|s|, i requires 0 <= i < |s| => s[|s| - 1 - i])
  }

  lemma ReducedRunCons(p: Params, automatic: bool, s: State, a: Action, acts: seq<Action>, t: State)
    requires Sized(p) && Fits(p, s) && CanStep(p, s, a)
    requires ReducedRun(p, automatic, Reduced(p, automatic, s, a), acts, t)
    ensures ReducedRun(p, automatic, s, [a] + acts, t)
  {
    assert ([a] + acts)[1..] == acts;
  }

  lemma ReversedCons(acts: seq<Action>, a: Action, last: Line)
    ensures Reversed(TookAll([a] + acts) + [last]) == Reversed(TookAll(acts) + [last]) + [Took(a)]
  {
    assert TookAll([a] + acts) == [Took(a)] + TookAll(acts);
    var s := TookAll(acts) + [last];
    assert TookAll([a] + acts) + [last] == [Took(a)] + s;
  }

  lemma LinkedEarlier(p: Params, automatic: bool, maxWt: nat, pred: Predecessors, order: seq<State>, j: nat)
      returns (i: nat)
    requires Sized(p) && Discovered(p, automatic, maxWt, pred, order) && j < |order|
    requires order[j] in pred && pred[order[j]].Some?
    ensures var (u, a) := pred[order[j]].value;
      i < j && order[i] == u && Fits(p, u) && CanStep(p, u, a) && order[j] == Reduced(p, automatic, u, a)
  {
    assert LinkedBack(p, automatic, maxWt, pred, order, j);
    i :| 0 <= i < j && order[i] == pred[order[j]].value.0;
  }

  lemma OnlyStart(p: Params, automatic: bool, maxWt: nat, pred: Predecessors, order: seq<State>, j: nat)
    requires Sized(p) && Discovered(p, automatic, maxWt, pred, order) && j < |order| && order[j] in pred
    ensures pred[order[j]] == None ==> order[j] == Start(p)
  {
    assert LinkedBack(p, automatic, maxWt, pred, order, j);
  }

  /** Every predecessor is one step nearer to the start. */
  ghost predicate Linked(depth: State -> nat, pred: Predecessors) {
    forall s :: OneNearer(depth, pred, s)
  }

  ghost predicate OneNearer(depth: State -> nat, pred: Predecessors, s: State) {
    s in pred && pred[s].Some? ==> depth(s) == depth(pred[s].value.0) + 1
  }

  /** Walks predecessors back to the start and turns the path round: a shortest run. */
  method Trace(p: Params, automatic: bool, ghost maxWt: nat, ghost depth: State -> nat, predecessor: Predecessors,
               ghost order: seq<State>, s: State, last: Line) returns (trace: seq<Line>, ghost acts: seq<Action>)
    requires Sized(p) && Discovered(p, automatic, maxWt, predecessor, order) && s in order
    requires Measures(p, automatic, depth) && Linked(depth, predecessor)
    ensures trace == TookAll(acts) + [last]
    ensures ReducedRun(p, automatic, Start(p), acts, s) && |acts| == depth(s)
  {
    var out := [last];
    var state := s;
    ghost var j :| 0 <= j < |order| && order[j] == s;
    acts := [];
    DiscoveredFits(p, automatic, maxWt, predecessor, order, s);
    while predecessor[state].Some?
      invariant 0 <= j < |order| && order[j] == state && state in predecessor && Fits(p, state)
      invariant ReducedRun(p, automatic, state, acts, s)
      invariant |acts| + depth(state) == depth(s)
      invariant out == Reversed(TookAll(acts) + [last])
      decreases j
    {
      var (u, a) := predecessor[state].value;
      ghost var i := LinkedEarlier(p, automatic, maxWt, predecessor, order, j);
      DiscoveredFits(p, automatic, maxWt, predecessor, order, u);
      assert OneNearer(depth, predecessor, state);
      ReducedRunCons(p, automatic, u, a, acts, s);
      ReversedCons(acts, a, last);
      out := out + [Took(a)];
      acts := [a] + acts;
      state, j := u, i;
    }
    OnlyStart(p, automatic, maxWt, predecessor, order, j);
    StartDepth(p, automatic, depth);
    trace := Reversed(out);
  }

  // What each answer means.

  ghost predicate GenuineTrace(p: Params, automatic: bool, maxWt: nat, trace: seq<Line>)
    requires Sized(p)
  {
    exists acts: seq<Action>, s: State, i: nat, size: nat, epoch: nat ::
      TraceOf(p, automatic, maxWt, trace, acts, s, i, size, epoch)
  }

  /** Some reduced run of `n` steps comes to a violation within the bound. */
  ghost predicate ViolatesAfter(p: Params, automatic: bool, maxWt: nat, n: nat)
    requires Sized(p)
  {
    exists acts: seq<Action>, s: State, a: Action ::
      && ReducedRun(p, automatic, Start(p), acts, s) && |acts| == n
      && Fits(p, s) && Violates(p, s, a) && s.wt + a.size <= maxWt
  }

  /** No counterexample within the bound has fewer lines. */
  ghost predicate Shortest(p: Params, automatic: bool, maxWt: nat, trace: seq<Line>)
    requires Sized(p)
  {
    forall n: nat :: ViolatesAfter(p, automatic, maxWt, n) ==> |trace| <= n + 1
  }

  /** The lines of `trace` are the steps `acts` from the start to `s`, where producer `i`'s reservation,
      the first there to do so, enters the pinned `epoch`. */
  ghost predicate TraceOf(p: Params, automatic: bool, maxWt: nat, trace: seq<Line>, acts: seq<Action>,
                          s: State, i: nat, size: nat, epoch: nat)
    requires Sized(p)
  {
    && ReducedRun(p, automatic, Start(p), acts, s) && Fits(p, s)
    && FirstViolation(p, s, maxWt, i, size, epoch)
    && trace == TookAll(acts) + [Entered(i, s.wt, s.wt + size, epoch, s.oldest, s.newest)]
  }

  ghost predicate Distinct(order: seq<State>) {
    forall i: nat, j: nat :: i < j < |order| ==> Differ(order, i, j)
  }

  ghost predicate Differ(order: seq<State>, i: nat, j: nat)
    requires i < |order| && j < |order|
  {
    order[i] != order[j]
  }

  /** `order` lists every reduced-reachable state within the bound once. */
  ghost predicate Exhausts(p: Params, automatic: bool, maxWt: nat, order: seq<State>)
    requires Sized(p)
  {
    && Distinct(order)
    && forall s :: s in order <==> ReducedReachable(p, automatic, s) && s.wt <= maxWt
  }

  /** The reported numbers count the distinct states within the bound and all their edges. */
  ghost predicate PassCounts(p: Params, automatic: bool, r: Outcome)
    requires Sized(p) && r.BoundedPass?
  {
    exists order: seq<State> ::
      && Exhausts(p, automatic, r.maxWt, order)
      && (forall s :: s in order ==> Fits(p, s))
      && r.states == |order| && r.edges == EdgeCount(p, r.maxWt, order)
  }

  ghost predicate AllReached(p: Params, automatic: bool, maxWt: nat, order: seq<State>)
    requires Sized(p)
  {
    forall s :: s in order ==> ReducedReachable(p, automatic, s) && s.wt <= maxWt
  }

  lemma DiscoveredGenuine(p: Params, automatic: bool, maxWt: nat, pred: Predecessors, order: seq<State>)
    requires Sized(p) && Discovered(p, automatic, maxWt, pred, order)
    ensures Distinct(order) && AllReached(p, automatic, maxWt, order)
  {
    forall s | s in order ensures ReducedReachable(p, automatic, s) && s.wt <= maxWt {
      var j :| 0 <= j < |order| && order[j] == s;
      DiscoveredFits(p, automatic, maxWt, pred, order, s);
      var acts := DiscoveredReachable(p, automatic, maxWt, pred, order, j);
    }
    forall i: nat, j: nat | i < j < |order| ensures Differ(order, i, j) {
      if order[i] == order[j] {
        DuplicateShrinks(order, i, j);
      }
    }
  }

  /** What the search has established once nothing is pending. */
  lemma SearchComplete(p: Params, automatic: bool, maxWt: nat, pred: Predecessors, order: seq<State>)
    requires Sized(p) && Discovered(p, automatic, maxWt, pred, order)
    requires forall s :: s in order ==> Closed(p, automatic, maxWt, pred.Keys, s)
    ensures Exhausts(p, automatic, maxWt, order)
    ensures !ReachesViolation(p, automatic, maxWt)
  {
    DiscoveredGenuine(p, automatic, maxWt, pred, order);
    forall s | ReducedReachable(p, automatic, s) && s.wt <= maxWt ensures s in order {
      var acts: seq<Action> :| ReducedRun(p, automatic, Start(p), acts, s);
      ClosedHoldsRuns(p, automatic, maxWt, pred.Keys, Start(p), acts, s);
    }
    SymmetryExact(p, automatic, maxWt);
  }

  /** Recording a new successor keeps the search tree. */
  lemma DiscoverOne(p: Params, automatic: bool, maxWt: nat, pred: Predecessors, order: seq<State>, s: State, a: Action)
    requires Sized(p) && Discovered(p, automatic, maxWt, pred, order) && s in order && Fits(p, s)
    requires CanStep(p, s, a) && Within(s, a, maxWt) && Reduced(p, automatic, s, a) !in pred
    ensures var t := Reduced(p, automatic, s, a);
      Discovered(p, automatic, maxWt, pred[t := Some((s, a))], order + [t])
  {
    var t := Reduced(p, automatic, s, a);
    var pred', order' := pred[t := Some((s, a))], order + [t];
    DiscoveredFits(p, automatic, maxWt, pred, order, s);
    assert pred'.Keys == Elements(order') by {
      assert forall u :: u in order' <==> u in order || u == t;
    }
    forall j | 0 <= j < |order'| ensures LinkedBack(p, automatic, maxWt, pred', order', j) {
      if j < |order| {
        assert LinkedBack(p, automatic, maxWt, pred, order, j);
        assert order'[..j] == order[..j];
      } else {
        assert order'[..j] == order;
      }
    }
  }

  /** A successor list whose moves all stay within the bound. */
  ghost predicate Bounded(p: Params, automatic: bool, maxWt: nat, s: State, moves: seq<Action>,
                          next: seq<(State, Action)>)
    requires Sized(p) && Fits(p, s)
  {
    Follows(p, automatic, s, moves, next) && forall a :: a in moves ==> Within(s, a, maxWt)
  }

  lemma NextAt(p: Params, automatic: bool, maxWt: nat, s: State, moves: seq<Action>, next: seq<(State, Action)>, n: nat)
    requires Sized(p) && Fits(p, s) && Bounded(p, automatic, maxWt, s, moves, next) && n < |next|
    ensures var (t, a) := next[n];
      CanStep(p, s, a) && Within(s, a, maxWt) && t == Reduced(p, automatic, s, a)
  {
    assert FollowsAt(p, automatic, s, moves, next, n);
  }

  /** The states `added` are new, lead from `state`, and are all that has been recorded. */
  ghost predicate LinkedTo(p: Params, automatic: bool, state: State, seen: Predecessors, pred: Predecessors,
                           added: seq<State>)
    requires Sized(p)
  {
    && seen.Keys <= pred.Keys
    && (forall s :: s in added ==> s in pred && s !in seen)
    && forall s :: s in pred ==>
         if s in seen then pred[s] == seen[s] else s in added && LedTo(p, automatic, state, pred, s)
  }

  ghost predicate LedTo(p: Params, automatic: bool, state: State, pred: Predecessors, s: State)
    requires Sized(p) && s in pred
  {
    && Fits(p, state) && pred[s].Some? && pred[s].value.0 == state
    && CanStep(p, state, pred[s].value.1) && s == Reduced(p, automatic, state, pred[s].value.1)
  }

  lemma LinkedMore(p: Params, automatic: bool, state: State, seen: Predecessors, mid: Predecessors,
                   pred: Predecessors, added: seq<State>, one: seq<State>)
    requires Sized(p) && LinkedTo(p, automatic, state, seen, mid, added)
    requires LinkedTo(p, automatic, state, mid, pred, one)
    ensures LinkedTo(p, automatic, state, seen, pred, added + one)
  {
    assert forall s :: s in added + one <==> s in added || s in one;
  }

  /** The search tree after recording the states `added` while `state` is expanded. */
  ghost predicate Grown(p: Params, automatic: bool, maxWt: nat, state: State, seen: Predecessors, order: seq<State>,
                        pred: Predecessors, added: seq<State>)
    requires Sized(p)
  {
    Discovered(p, automatic, maxWt, pred, order + added) && LinkedTo(p, automatic, state, seen, pred, added)
  }

  lemma LinkOne(p: Params, automatic: bool, state: State, a: Action, t: State, seen: Predecessors,
                pred: Predecessors, added: seq<State>)
    requires Sized(p) && LinkedTo(p, automatic, state, seen, pred, added) && Fits(p, state)
    requires CanStep(p, state, a) && t == Reduced(p, automatic, state, a) && t !in pred
    ensures LinkedTo(p, automatic, state, seen, pred[t := Some((state, a))], added + [t])
  {
    LinkedMore(p, automatic, state, seen, pred, pred[t := Some((state, a))], added, [t]);
  }

  lemma GrowOne(p: Params, automatic: bool, maxWt: nat, state: State, a: Action, t: State, seen: Predecessors,
                order: seq<State>, pred: Predecessors, added: seq<State>)
    requires Sized(p) && Grown(p, automatic, maxWt, state, seen, order, pred, added) && state in order && Fits(p, state)
    requires CanStep(p, state, a) && Within(state, a, maxWt) && t == Reduced(p, automatic, state, a) && t !in pred
    ensures Grown(p, automatic, maxWt, state, seen, order, pred[t := Some((state, a))], added + [t])
  {
    DiscoverOne(p, automatic, maxWt, pred, order + added, state, a);
    ConcatAssociates(order, added, [t]);
    LinkOne(p, automatic, state, a, t, seen, pred, added);
  }

  /** Records one successor if it has not been seen before. */
  method AbsorbOne(p: Params, automatic: bool, ghost maxWt: nat, state: State, nxt: State, action: Action,
                   predecessor: Predecessors, ghost seen: Predecessors, ghost order: seq<State>,
                   ghost added: seq<State>)
      returns (next: Predecessors, one: seq<State>)
    requires Sized(p) && Grown(p, automatic, maxWt, state, seen, order, predecessor, added)
    requires state in order && Fits(p, state)
    requires CanStep(p, state, action) && Within(state, action, maxWt) && nxt == Reduced(p, automatic, state, action)
    ensures Grown(p, automatic, maxWt, state, seen, order, next, added + one)
    ensures |next| == |order| + |added| + |one| && next.Keys == predecessor.Keys + {nxt}
    ensures if nxt in predecessor then one == [] && next == predecessor
            else one == [nxt] && next == predecessor[nxt := Some((state, action))]
  {
    if nxt in predecessor {
      assert added + [] == added;
      return predecessor, [];
    }
    GrowOne(p, automatic, maxWt, state, action, nxt, seen, order, predecessor, added);
    return predecessor[nxt := Some((state, action))], [nxt];
  }

  ghost predicate Recorded(next: seq<(State, Action)>, n: nat, known: set<State>)
    requires n <= |next|
  {
    forall j :: 0 <= j < n ==> next[j].0 in known
  }

  lemma RecordedMore(next: seq<(State, Action)>, n: nat, known: set<State>, known': set<State>)
    requires n < |next| && Recorded(next, n, known) && known' == known + {next[n].0}
    ensures Recorded(next, n + 1, known')
  {
  }

  lemma ConcatAssociates(a: seq<State>, b: seq<State>, c: seq<State>)
    ensures (a + b) + c == a + (b + c)
  {
  }

  /** `added` are the new states among the first `n` successors in their order, `at` says which of them,
      and each is linked by the first action that leads there. */
  ghost predicate Queued(state: State, next: seq<(State, Action)>, n: nat, pred: Predecessors, added: seq<State>,
                         at: seq<nat>)
    requires n <= |next|
  {
    && |at| == |added| && (forall i, j :: 0 <= i < j < |at| ==> at[i] < at[j])
    && forall i :: 0 <= i < |at| ==> at[i] < n && QueuedAt(state, next, pred, added[i], at[i])
  }

  ghost predicate QueuedAt(state: State, next: seq<(State, Action)>, pred: Predecessors, t: State, k: nat)
    requires k < |next|
  {
    && next[k].0 == t && t in pred && pred[t] == Some((state, next[k].1))
    && forall j :: 0 <= j < k ==> next[j].0 != t
  }

  lemma QueuedMore(state: State, next: seq<(State, Action)>, n: nat, pred: Predecessors, added: seq<State>,
                   at: seq<nat>, more: Predecessors, one: seq<State>)
    requires n < |next| && Queued(state, next, n, pred, added, at) && Recorded(next, n, pred.Keys)
    requires if next[n].0 in pred then one == [] && more == pred
             else one == [next[n].0] && more == pred[next[n].0 := Some((state, next[n].1))]
    ensures Queued(state, next, n + 1, more, added + one, if one == [] then at else at + [n])
  {
    if one == [] {
      assert added + one == added;
    }
    forall i | 0 <= i < |at| ensures QueuedAt(state, next, more, added[i], at[i]) {
      assert QueuedAt(state, next, pred, added[i], at[i]);
    }
  }

  /** One round of the loop over the successors: the `n`-th. */
  method AbsorbAt(p: Params, automatic: bool, ghost maxWt: nat, state: State, next: seq<(State, Action)>, n: nat,
                  ghost moves: seq<Action>, predecessor: Predecessors, ghost seen: Predecessors,
                  ghost order: seq<State>, added: seq<State>, ghost at: seq<nat>)
      returns (more: Predecessors, all: seq<State>, ghost at': seq<nat>)
    requires Sized(p) && Grown(p, automatic, maxWt, state, seen, order, predecessor, added)
    requires state in order && Fits(p, state) && Bounded(p, automatic, maxWt, state, moves, next)
    requires n < |next| && Recorded(next, n, predecessor.Keys)
    requires Queued(state, next, n, predecessor, added, at)
    ensures Grown(p, automatic, maxWt, state, seen, order, more, all)
    ensures |more| == |order| + |all| && (all == added || |all| == |added| + 1)
    ensures Recorded(next, n + 1, more.Keys)
    ensures Queued(state, next, n + 1, more, all, at')
  {
    var (nxt, action) := next[n];
    NextAt(p, automatic, maxWt, state, moves, next, n);
    var one;
    more, one := AbsorbOne(p, automatic, maxWt, state, nxt, action, predecessor, seen, order, added);
    RecordedMore(next, n, predecessor.Keys, more.Keys);
    QueuedMore(state, next, n, predecessor, added, at, more, one);
    all, at' := added + one, if one == [] then at else at + [n];
  }

  /** Records the successors not seen before, stopping at the state limit. */
  method Absorb(p: Params, automatic: bool, maxWt: nat, stateLimit: int, state: State, next: seq<(State, Action)>,
                ghost moves: seq<Action>, seen: Predecessors, ghost order: seq<State>)
      returns (predecessor: Predecessors, added: seq<State>, taken: nat, limited: bool, ghost at: seq<nat>)
    requires Sized(p) && Discovered(p, automatic, maxWt, seen, order) && Fits(p, state)
    requires state in order && Bounded(p, automatic, maxWt, state, moves, next)
    requires |order| == 1 || |order| < stateLimit
    ensures Grown(p, automatic, maxWt, state, seen, order, predecessor, added)
    ensures taken <= |next| && Queued(state, next, taken, predecessor, added, at)
    ensures limited ==> |predecessor| == (if stateLimit <= 2 then 2 else stateLimit) && 0 < taken <= |next|
    ensures !limited ==>
              && taken == |next|
              && (added == [] || |order| + |added| < stateLimit)
              && Recorded(next, |next|, predecessor.Keys)
  {
    predecessor, added, taken, limited, at := seen, [], 0, false, [];
    assert order + [] == order;
    while taken < |next|
      invariant 0 <= taken <= |next|
      invariant Grown(p, automatic, maxWt, state, seen, order, predecessor, added)
      invariant added == [] || |order| + |added| < stateLimit
      invariant Recorded(next, taken, predecessor.Keys)
      invariant Queued(state, next, taken, predecessor, added, at)
    {
      var before := |added|;
      predecessor, added, at :=
        AbsorbAt(p, automatic, maxWt, state, next, taken, moves, predecessor, seen, order, added, at);
      taken := taken + 1;
      if |added| > before && |predecessor| >= stateLimit {
        limited := true;
        return;
      }
    }
  }

  /** The states taken off the queue have been expanded and every edge counted. */
  ghost predicate Expanded(p: Params, automatic: bool, maxWt: nat, known: set<State>, done: seq<State>, edges: nat)
    requires Sized(p)
  {
    && (forall s :: s in done ==> Closed(p, automatic, maxWt, known, s))
    && edges == EdgeCount(p, maxWt, done)
  }

  lemma HeadClosed(p: Params, automatic: bool, maxWt: nat, known: set<State>, s: State, next: seq<(State, Action)>)
    requires Sized(p) && Fits(p, s) && Follows(p, automatic, s, Moves(p, s, maxWt), next)
    requires Recorded(next, |next|, known)
    ensures Closed(p, automatic, maxWt, known, s)
  {
    var moves := Moves(p, s, maxWt);
    MovesExact(p, s, maxWt);
    forall a | Enabled(p, s, a) && Within(s, a, maxWt)
      ensures !Violates(p, s, a) && Reduced(p, automatic, s, a) in known
    {
      var j :| 0 <= j < |moves| && moves[j] == a;
      assert FollowsAt(p, automatic, s, moves, next, j) && next[j].0 in known;
    }
  }

  lemma EdgeCountMore(p: Params, maxWt: nat, done: seq<State>, s: State)
    requires Sized(p) && Fits(p, s) && forall u :: u in done ==> Fits(p, u)
    ensures EdgeCount(p, maxWt, done + [s]) == EdgeCount(p, maxWt, done) + |Moves(p, s, maxWt)|
  {
    assert (done + [s])[..|done|] == done;
  }

  lemma ExpandOne(p: Params, automatic: bool, maxWt: nat, known: set<State>, known': set<State>, done: seq<State>,
                  edges: nat, s: State, next: seq<(State, Action)>)
    requires Sized(p) && Fits(p, s) && Expanded(p, automatic, maxWt, known, done, edges) && known <= known'
    requires Follows(p, automatic, s, Moves(p, s, maxWt), next)
    requires Recorded(next, |next|, known')
    ensures Expanded(p, automatic, maxWt, known', done + [s], edges + |next|)
  {
    HeadClosed(p, automatic, maxWt, known', s, next);
    forall u | u in done ensures Closed(p, automatic, maxWt, known', u) {
      assert Closed(p, automatic, maxWt, known, u);
    }
    EdgeCountMore(p, maxWt, done, s);
  }

  /** A search that stopped early has expanded `done` with all its edges counted, was at the head of
      `pending`, and had found `states` distinct states. */
  ghost predicate StoppedWith(p: Params, automatic: bool, maxWt: nat, done: seq<State>, pending: seq<State>,
                              states: nat)
    requires Sized(p)
  {
    && pending != [] && Distinct(done + pending) && AllReached(p, automatic, maxWt, done + pending)
    && (forall s :: s in done ==> Closed(p, automatic, maxWt, Elements(done + pending), s))
    && Fits(p, pending[0]) && states == |done + pending|
  }

  /** The counts of a counterexample: the edges are those of the states expanded before it. */
  ghost predicate FoundAt(p: Params, automatic: bool, maxWt: nat, done: seq<State>, pending: seq<State>,
                          states: nat, edges: nat)
    requires Sized(p)
  {
    StoppedWith(p, automatic, maxWt, done, pending, states) && edges == EdgeCount(p, maxWt, done)
  }

  /** The counts of a search that gave up: the edges include part of one more state's. */
  ghost predicate LimitAt(p: Params, automatic: bool, maxWt: nat, done: seq<State>, pending: seq<State>,
                          states: nat, edges: nat)
    requires Sized(p)
  {
    && StoppedWith(p, automatic, maxWt, done, pending, states)
    && EdgeCount(p, maxWt, done) < edges <= EdgeCount(p, maxWt, done) + |Moves(p, pending[0], maxWt)|
  }

  /** What an answer asserts. A counterexample carries a genuine run and none is shorter, a pass is a
      proof for its bound below the limit, the strict mode has no counterexample, and the search gives
      up at its limit only. */
  ghost predicate Verdict(p: Params, maxWt: nat, automatic: bool, stateLimit: int, r: Outcome)
    requires Sized(p)
  {
    match r
    case Counterexample(_, _, trace) =>
      && automatic && GenuineTrace(p, automatic, maxWt, trace) && ReachesViolation(p, automatic, maxWt)
      && Shortest(p, automatic, maxWt, trace)
    case BoundedPass(states, _, bound) =>
      && bound == maxWt && !ReachesViolation(p, automatic, maxWt)
      && (states == 1 || states < stateLimit)
    case StateLimit(states, _) =>
      states == if stateLimit <= 2 then 2 else stateLimit
  }

  /** The reported numbers are those of the search, ended or stopped. */
  ghost predicate Tally(p: Params, maxWt: nat, automatic: bool, r: Outcome)
    requires Sized(p)
  {
    match r
    case Counterexample(states, edges, _) =>
      exists done, pending: seq<State> :: FoundAt(p, automatic, maxWt, done, pending, states, edges)
    case BoundedPass(_, _, _) => PassCounts(p, automatic, r)
    case StateLimit(states, edges) =>
      exists done, pending: seq<State> :: LimitAt(p, automatic, maxWt, done, pending, states, edges)
  }

  // Breadth first.

  /** The queue holds one layer and then states of the next, all behind what has been expanded. */
  ghost predicate Layered(depth: State -> nat, pred: Predecessors, done: seq<State>, pending: seq<State>) {
    && Linked(depth, pred) && Ascending(depth, done + pending)
    && forall s :: s in pending ==> depth(s) <= depth(pending[0]) + 1
  }

  ghost predicate Ascending(depth: State -> nat, order: seq<State>) {
    forall i: nat, j: nat :: i < j < |order| ==> NoDeeper(depth, order, i, j)
  }

  ghost predicate NoDeeper(depth: State -> nat, order: seq<State>, i: nat, j: nat)
    requires i < |order| && j < |order|
  {
    depth(order[i]) <= depth(order[j])
  }

  /** A bounded run no longer than the depth of `head` stays among the known states. */
  lemma {:induction false} NearKnown(p: Params, automatic: bool, maxWt: nat, depth: State -> nat, known: set<State>,
                                     done: seq<State>, head: State, s: State, acts: seq<Action>, t: State)
    requires Sized(p) && Measures(p, automatic, depth)
    requires forall u :: u in done ==> Closed(p, automatic, maxWt, known, u)
    requires forall u :: u in known && depth(u) < depth(head) ==> u in done
    requires s in known && Fits(p, s) && ReducedReachable(p, automatic, s)
    requires ReducedRun(p, automatic, s, acts, t) && t.wt <= maxWt
    requires depth(s) + |acts| <= depth(head)
    ensures t in known
    decreases |acts|
  {
    if acts == [] {
      assert s == t;
    } else {
      var u := Reduced(p, automatic, s, acts[0]);
      ReducedRunMonotone(p, automatic, u, acts[1..], t);
      DepthStep(p, automatic, depth, s, acts[0]);
      assert s in done && Closed(p, automatic, maxWt, known, s);
      NearKnown(p, automatic, maxWt, depth, known, done, head, u, acts[1..], t);
    }
  }

  /** What is nearer than the head of the queue has been expanded. */
  lemma NearerDone(depth: State -> nat, done: seq<State>, pending: seq<State>)
    requires pending != [] && Ascending(depth, done + pending)
    ensures forall u :: u in done + pending && depth(u) < depth(pending[0]) ==> u in done
  {
    var order := done + pending;
    forall u | u in order && depth(u) < depth(pending[0]) ensures u in done {
      var i :| 0 <= i < |order| && order[i] == u;
      assert order[|done|] == pending[0];
      assert |done| < i ==> NoDeeper(depth, order, |done|, i);
    }
  }

  lemma RunsKnown(p: Params, automatic: bool, maxWt: nat, depth: State -> nat, pred: Predecessors,
                  done: seq<State>, pending: seq<State>, acts: seq<Action>, t: State)
    requires Sized(p) && Measures(p, automatic, depth)
    requires pending != [] && Discovered(p, automatic, maxWt, pred, done + pending)
    requires Ascending(depth, done + pending)
    requires forall u :: u in done ==> Closed(p, automatic, maxWt, pred.Keys, u)
    requires ReducedRun(p, automatic, Start(p), acts, t) && t.wt <= maxWt
    requires |acts| <= depth(pending[0])
    ensures t in pred
  {
    NearerDone(depth, done, pending);
    StartDepth(p, automatic, depth);
    assert Start(p) in done + pending;
    NearKnown(p, automatic, maxWt, depth, pred.Keys, done, pending[0], Start(p), acts, t);
  }

  /** A state recorded while the head of the queue is expanded lies one layer behind it. */
  lemma AddedDepth(p: Params, automatic: bool, maxWt: nat, depth: State -> nat, seen: Predecessors,
                   done: seq<State>, queue: seq<State>, pred: Predecessors, added: seq<State>, t: State)
    requires Sized(p) && Measures(p, automatic, depth)
    requires queue != [] && Discovered(p, automatic, maxWt, seen, done + queue)
    requires Ascending(depth, done + queue)
    requires forall u :: u in done ==> Closed(p, automatic, maxWt, seen.Keys, u)
    requires LinkedTo(p, automatic, queue[0], seen, pred, added) && t in added && t.wt <= maxWt
    ensures depth(t) == depth(queue[0]) + 1
  {
    DiscoveredGenuine(p, automatic, maxWt, seen, done + queue);
    assert queue[0] in done + queue;
    DepthStep(p, automatic, depth, queue[0], pred[t].value.1);
    if depth(t) <= depth(queue[0]) {
      var acts := DepthRun(p, automatic, depth, t);
      RunsKnown(p, automatic, maxWt, depth, seen, done, queue, acts, t);
      assert false;
    }
  }

  lemma AscendingMore(depth: State -> nat, order: seq<State>, added: seq<State>, d: nat)
    requires Ascending(depth, order) && (forall s :: s in order ==> depth(s) <= d)
    requires forall s :: s in added ==> depth(s) == d
    ensures Ascending(depth, order + added)
  {
    var all := order + added;
    forall i: nat, j: nat | i < j < |all| ensures NoDeeper(depth, all, i, j) {
      assert all[j] in if j < |order| then order else added;
      if j < |order| {
        assert NoDeeper(depth, order, i, j);
      } else {
        assert all[i] in if i < |order| then order else added;
      }
    }
  }

  /** The head of the queue is at most one layer ahead of every known state. */
  lemma HeadDepth(depth: State -> nat, pred: Predecessors, done: seq<State>, pending: seq<State>)
    requires pending != [] && Layered(depth, pred, done, pending)
    ensures forall s :: s in done ==> depth(s) <= depth(pending[0])
    ensures forall s :: s in pending ==> depth(pending[0]) <= depth(s)
  {
    var order := done + pending;
    forall s | s in done ensures depth(s) <= depth(pending[0]) {
      var i: nat :| i < |done| && done[i] == s;
      assert NoDeeper(depth, order, i, |done|);
    }
    forall s | s in pending ensures depth(pending[0]) <= depth(s) {
      var i: nat :| i < |pending| && pending[i] == s;
      assert i > 0 ==> NoDeeper(depth, order, |done|, |done| + i);
    }
  }

  /** Expanding the head keeps the layers. */
  lemma LayersKept(p: Params, automatic: bool, maxWt: nat, depth: State -> nat, seen: Predecessors,
                   done: seq<State>, queue: seq<State>, pred: Predecessors, added: seq<State>)
    requires Sized(p) && Measures(p, automatic, depth)
    requires queue != [] && Discovered(p, automatic, maxWt, seen, done + queue)
    requires Layered(depth, seen, done, queue)
    requires forall u :: u in done ==> Closed(p, automatic, maxWt, seen.Keys, u)
    requires LinkedTo(p, automatic, queue[0], seen, pred, added)
    requires Discovered(p, automatic, maxWt, pred, (done + queue) + added)
    ensures Layered(depth, pred, done + [queue[0]], queue[1..] + added)
  {
    forall t | t in added ensures depth(t) == depth(queue[0]) + 1 {
      DiscoveredFits(p, automatic, maxWt, pred, (done + queue) + added, t);
      AddedDepth(p, automatic, maxWt, depth, seen, done, queue, pred, added, t);
    }
    LinksKept(p, automatic, depth, seen, queue[0], pred, added);
    LayersShift(depth, seen, done, queue, pred, added);
  }

  lemma LinksKept(p: Params, automatic: bool, depth: State -> nat, seen: Predecessors, state: State,
                  pred: Predecessors, added: seq<State>)
    requires Sized(p) && Linked(depth, seen) && LinkedTo(p, automatic, state, seen, pred, added)
    requires forall t :: t in added ==> depth(t) == depth(state) + 1
    ensures Linked(depth, pred)
  {
    forall s ensures OneNearer(depth, pred, s) {
      assert OneNearer(depth, seen, s);
    }
  }

  lemma LayersShift(depth: State -> nat, seen: Predecessors, done: seq<State>, queue: seq<State>,
                    pred: Predecessors, added: seq<State>)
    requires queue != [] && Layered(depth, seen, done, queue) && Linked(depth, pred)
    requires forall t :: t in added ==> depth(t) == depth(queue[0]) + 1
    ensures Layered(depth, pred, done + [queue[0]], queue[1..] + added)
  {
    HeadDepth(depth, seen, done, queue);
    AscendingMore(depth, done + queue, added, depth(queue[0]) + 1);
    QueueShifts(done, queue, added);
    forall s | s in queue[1..] + added ensures depth(queue[0]) <= depth(s) <= depth(queue[0]) + 1 {
      assert s in queue || s in added;
    }
  }

  /** No run at all comes to a violation within the bound in fewer steps than it takes to the head
      of the queue. */
  lemma FoundNearest(p: Params, automatic: bool, maxWt: nat, depth: State -> nat, pred: Predecessors, done: seq<State>,
                     pending: seq<State>, acts: seq<Action>, s: State, a: Action)
    requires Sized(p) && Measures(p, automatic, depth)
    requires pending != [] && Discovered(p, automatic, maxWt, pred, done + pending)
    requires Ascending(depth, done + pending)
    requires forall u :: u in done ==> Closed(p, automatic, maxWt, pred.Keys, u)
    requires ReducedRun(p, automatic, Start(p), acts, s) && Fits(p, s)
    requires Violates(p, s, a) && s.wt + a.size <= maxWt
    ensures depth(pending[0]) <= |acts|
  {
    if |acts| < depth(pending[0]) {
      RunsKnown(p, automatic, maxWt, depth, pred, done, pending, acts, s);
      DepthAtMost(p, automatic, depth, acts, s);
      NearerDone(depth, done, pending);
      NoViolation(p, automatic, maxWt, pred.Keys, s, a);
      assert false;
    }
  }

  lemma NoViolation(p: Params, automatic: bool, maxWt: nat, known: set<State>, s: State, a: Action)
    requires Sized(p) && Closed(p, automatic, maxWt, known, s) && (a.Reserve? ==> s.wt + a.size <= maxWt)
    ensures !Violates(p, s, a)
  {
  }

  /** What holds each time the explorer looks at its queue. */
  ghost predicate Searching(p: Params, automatic: bool, maxWt: nat, stateLimit: int, pred: Predecessors,
                            done: seq<State>, pending: seq<State>, edges: nat)
    requires Sized(p)
  {
    && Discovered(p, automatic, maxWt, pred, done + pending)
    && (|pred| == 1 || |pred| < stateLimit)
    && Expanded(p, automatic, maxWt, pred.Keys, done, edges)
  }

  lemma SearchStops(p: Params, automatic: bool, maxWt: nat, known: set<State>, done: seq<State>, count: nat,
                    pred: Predecessors, pending: seq<State>)
    requires Sized(p) && pending != [] && known <= pred.Keys
    requires Expanded(p, automatic, maxWt, known, done, count)
    requires Discovered(p, automatic, maxWt, pred, done + pending)
    ensures StoppedWith(p, automatic, maxWt, done, pending, |pred|)
  {
    DiscoveredGenuine(p, automatic, maxWt, pred, done + pending);
    DiscoveredFits(p, automatic, maxWt, pred, done + pending, pending[0]);
    forall s | s in done ensures Closed(p, automatic, maxWt, pred.Keys, s) {
      assert Closed(p, automatic, maxWt, known, s);
    }
  }

  lemma LimitStops(p: Params, automatic: bool, maxWt: nat, known: set<State>, done: seq<State>, count: nat,
                   pred: Predecessors, pending: seq<State>, taken: nat)
    requires Sized(p) && pending != [] && Fits(p, pending[0]) && known <= pred.Keys
    requires Expanded(p, automatic, maxWt, known, done, count)
    requires Discovered(p, automatic, maxWt, pred, done + pending)
    requires 0 < taken <= |Moves(p, pending[0], maxWt)|
    ensures LimitAt(p, automatic, maxWt, done, pending, |pred|, count + taken)
  {
    SearchStops(p, automatic, maxWt, known, done, count, pred, pending);
  }

  lemma FoundStops(p: Params, automatic: bool, maxWt: nat, pred: Predecessors, done: seq<State>, queue: seq<State>,
                   count: nat)
    requires Sized(p) && queue != [] && Expanded(p, automatic, maxWt, pred.Keys, done, count)
    requires Discovered(p, automatic, maxWt, pred, done + queue)
    ensures FoundAt(p, automatic, maxWt, done, queue, |pred|, count)
  {
    SearchStops(p, automatic, maxWt, pred.Keys, done, count, pred, queue);
  }

  lemma LimitTally(p: Params, maxWt: nat, automatic: bool, done: seq<State>, pending: seq<State>, states: nat,
                   edges: nat)
    requires Sized(p) && LimitAt(p, automatic, maxWt, done, pending, states, edges)
    ensures Tally(p, maxWt, automatic, StateLimit(states, edges))
  {
  }

  lemma FoundTally(p: Params, maxWt: nat, automatic: bool, done: seq<State>, pending: seq<State>, states: nat,
                   edges: nat, trace: seq<Line>)
    requires Sized(p) && FoundAt(p, automatic, maxWt, done, pending, states, edges)
    ensures Tally(p, maxWt, automatic, Counterexample(states, edges, trace))
  {
  }

  /** Takes one state off the queue: the search ends with a verdict or goes on one state further. */
  method Visit(p: Params, maxWt: nat, automatic: bool, stateLimit: int, ghost depth: State -> nat, seen: Predecessors,
               ghost done: seq<State>, queue: seq<State>, count: nat)
      returns (answer: Option<Outcome>, predecessor: Predecessors, pending: seq<State>, edges: nat)
    requires Admitted(p) && Sized(p) && queue != []
    requires Searching(p, automatic, maxWt, stateLimit, seen, done, queue, count)
    requires Measures(p, automatic, depth) && Layered(depth, seen, done, queue)
    ensures answer.Some? ==>
              Verdict(p, maxWt, automatic, stateLimit, answer.value) && Tally(p, maxWt, automatic, answer.value)
    ensures answer == None ==>
              && Searching(p, automatic, maxWt, stateLimit, predecessor, done + [queue[0]], pending, edges)
              && Layered(depth, predecessor, done + [queue[0]], pending)
              && queue[1..] <= pending && |predecessor| == |seen| + |pending| - (|queue| - 1)
  {
    var state := queue[0];
    ghost var order := done + queue;
    predecessor, pending, edges := seen, queue, count;
    assert state == order[|done|];
    DiscoveredFits(p, automatic, maxWt, seen, order, state);
    var found := Expand(p, state, automatic, maxWt);
    if found.Found? {
      var r := Report(p, maxWt, automatic, stateLimit, depth, seen, done, queue, edges, found);
      return Some(r), predecessor, pending, edges;
    }
    MovesExact(p, state, maxWt);
    var limited;
    ghost var at;
    limited, predecessor, pending, edges, at :=
      Enqueue(p, maxWt, automatic, stateLimit, depth, seen, done, queue, count, found.next);
    if limited {
      LimitVerdict(p, maxWt, automatic, stateLimit, |predecessor|, edges);
      LimitTally(p, maxWt, automatic, done, [state] + pending, |predecessor|, edges);
      return Some(StateLimit(|predecessor|, edges)), predecessor, pending, edges;
    }
    answer := None;
  }

  /** Records and queues the successors of the head of the queue. */
  method Enqueue(p: Params, maxWt: nat, automatic: bool, stateLimit: int, ghost depth: State -> nat, seen: Predecessors,
                 ghost done: seq<State>, queue: seq<State>, count: nat, next: seq<(State, Action)>)
      returns (limited: bool, predecessor: Predecessors, pending: seq<State>, edges: nat, ghost at: seq<nat>)
    requires Sized(p) && queue != [] && Fits(p, queue[0])
    requires Searching(p, automatic, maxWt, stateLimit, seen, done, queue, count)
    requires Measures(p, automatic, depth) && Layered(depth, seen, done, queue)
    requires var moves := Moves(p, queue[0], maxWt);
      Bounded(p, automatic, maxWt, queue[0], moves, next)
    ensures queue[1..] <= pending
    ensures count <= edges <= count + |next|
    ensures Queued(queue[0], next, edges - count, predecessor, pending[|queue| - 1..], at)
    ensures limited ==>
              && LimitAt(p, automatic, maxWt, done, [queue[0]] + pending, |predecessor|, edges)
              && |predecessor| == if stateLimit <= 2 then 2 else stateLimit
    ensures !limited ==>
              && Searching(p, automatic, maxWt, stateLimit, predecessor, done + [queue[0]], pending, edges)
              && Layered(depth, predecessor, done + [queue[0]], pending)
              && queue[1..] <= pending && |predecessor| == |seen| + |pending| - (|queue| - 1)
  {
    var added, taken;
    predecessor, added, taken, limited, at :=
      Absorb(p, automatic, maxWt, stateLimit, queue[0], next, Moves(p, queue[0], maxWt), seen, done + queue);
    pending, edges := queue[1..] + added, count + taken;
    if limited {
      LimitReached(p, automatic, maxWt, stateLimit, seen, done, queue, count, predecessor, added, taken);
    } else {
      GoesOn(p, automatic, maxWt, stateLimit, depth, seen, done, queue, count, predecessor, added, next);
    }
  }

  lemma LimitReached(p: Params, automatic: bool, maxWt: nat, stateLimit: int, seen: Predecessors, done: seq<State>,
                     queue: seq<State>, count: nat, pred: Predecessors, added: seq<State>, taken: nat)
    requires Sized(p) && queue != [] && Fits(p, queue[0])
    requires Searching(p, automatic, maxWt, stateLimit, seen, done, queue, count)
    requires Grown(p, automatic, maxWt, queue[0], seen, done + queue, pred, added)
    requires 0 < taken <= |Moves(p, queue[0], maxWt)|
    ensures LimitAt(p, automatic, maxWt, done, [queue[0]] + (queue[1..] + added), |pred|, count + taken)
  {
    HeadStays(done, queue, added);
    LimitStops(p, automatic, maxWt, seen.Keys, done, count, pred, [queue[0]] + (queue[1..] + added), taken);
  }

  lemma HeadStays(done: seq<State>, queue: seq<State>, added: seq<State>)
    requires queue != []
    ensures (done + queue) + added == done + ([queue[0]] + (queue[1..] + added))
  {
  }

  lemma GoesOn(p: Params, automatic: bool, maxWt: nat, stateLimit: int, depth: State -> nat, seen: Predecessors,
               done: seq<State>, queue: seq<State>, count: nat, pred: Predecessors, added: seq<State>,
               next: seq<(State, Action)>)
    requires Sized(p) && queue != [] && Fits(p, queue[0])
    requires Searching(p, automatic, maxWt, stateLimit, seen, done, queue, count)
    requires Measures(p, automatic, depth) && Layered(depth, seen, done, queue)
    requires Follows(p, automatic, queue[0], Moves(p, queue[0], maxWt), next)
    requires Grown(p, automatic, maxWt, queue[0], seen, done + queue, pred, added)
    requires Recorded(next, |next|, pred.Keys) && (added == [] || |done + queue| + |added| < stateLimit)
    ensures Searching(p, automatic, maxWt, stateLimit, pred, done + [queue[0]], queue[1..] + added, count + |next|)
    ensures Layered(depth, pred, done + [queue[0]], queue[1..] + added)
    ensures |pred| == |seen| + |added|
  {
    Advances(p, automatic, maxWt, stateLimit, seen, done, queue, count, pred, added, next);
    LayersKept(p, automatic, maxWt, depth, seen, done, queue, pred, added);
  }

  lemma LimitVerdict(p: Params, maxWt: nat, automatic: bool, stateLimit: int, states: nat, edges: nat)
    requires Sized(p) && states == if stateLimit <= 2 then 2 else stateLimit
    ensures Verdict(p, maxWt, automatic, stateLimit, StateLimit(states, edges))
  {
  }

  lemma Advances(p: Params, automatic: bool, maxWt: nat, stateLimit: int, seen: Predecessors, done: seq<State>,
                 queue: seq<State>, count: nat, pred: Predecessors, added: seq<State>, next: seq<(State, Action)>)
    requires Sized(p) && queue != [] && Fits(p, queue[0])
    requires Searching(p, automatic, maxWt, stateLimit, seen, done, queue, count)
    requires Follows(p, automatic, queue[0], Moves(p, queue[0], maxWt), next)
    requires Discovered(p, automatic, maxWt, pred, (done + queue) + added) && seen.Keys <= pred.Keys
    requires Recorded(next, |next|, pred.Keys) && (added == [] || |pred| < stateLimit)
    ensures Searching(p, automatic, maxWt, stateLimit, pred, done + [queue[0]], queue[1..] + added, count + |next|)
  {
    QueueShifts(done, queue, added);
    ExpandOne(p, automatic, maxWt, seen.Keys, pred.Keys, done, count, queue[0], next);
  }

  /** The explorer. With the negative control and a whole lap it never passes. */
  method Explore(p: Params, laps: nat, automatic: bool, stateLimit: int) returns (r: Outcome)
    requires Admitted(p) && Sized(p)
    ensures var maxWt := p.k * p.cap * laps;
      Verdict(p, maxWt, automatic, stateLimit, r) && Tally(p, maxWt, automatic, r)
    ensures laps >= 1 && automatic ==> !r.BoundedPass?
  {
    r := Search(p, p.k * p.cap * laps, automatic, stateLimit);
    if laps >= 1 && automatic {
      NegativeControlFound(p, laps);
    }
  }

  /** The queue loop. */
  method Search(p: Params, maxWt: nat, automatic: bool, stateLimit: int) returns (r: Outcome)
    requires Admitted(p) && Sized(p)
    ensures Verdict(p, maxWt, automatic, stateLimit, r) && Tally(p, maxWt, automatic, r)
  {
    var pending := [Start(p)];
    var predecessor: Predecessors := map[Start(p) := None];
    var edges: nat := 0;
    ghost var done: seq<State> := [];
    ghost var depth := DepthsExist(p, automatic);
    StartSearching(p, automatic, maxWt, stateLimit);
    StartLayered(p, depth);
    while pending != []
      invariant Searching(p, automatic, maxWt, stateLimit, predecessor, done, pending, edges)
      invariant Layered(depth, predecessor, done, pending)
      decreases if |predecessor| < stateLimit then stateLimit - |predecessor| else 0, |pending|
    {
      ghost var state := pending[0];
      var answer;
      answer, predecessor, pending, edges :=
        Visit(p, maxWt, automatic, stateLimit, depth, predecessor, done, pending, edges);
      if answer.Some? {
        return answer.value;
      }
      done := done + [state];
    }
    assert done + pending == done;
    r := BoundedPass(|predecessor|, edges, maxWt);
    PassVerdict(p, maxWt, automatic, stateLimit, predecessor, done, r);
  }

  lemma {:induction false} DistinctFits(small: seq<State>, large: seq<State>)
    requires Distinct(small) && forall s :: s in small ==> s in large
    ensures |small| <= |large|
  {
    if small == [] {
    } else {
      assert small[0] in large;
      var i :| 0 <= i < |large| && large[i] == small[0];
      var rest := large[..i] + large[i + 1..];
      forall m: nat, n: nat | m < n < |small[1..]| ensures Differ(small[1..], m, n) {
        assert Differ(small, m + 1, n + 1);
      }
      forall s | s in small[1..] ensures s in rest {
        var n: nat :| n < |small[1..]| && small[1..][n] == s;
        assert Differ(small, 0, n + 1) && s in small;
        var j :| 0 <= j < |large| && large[j] == s;
        assert s == rest[if j < i then j else j - 1];
      }
      DistinctFits(small[1..], rest);
    }
  }

  /** In the strict mode the number of reachable orbits within the bound determines the answer: `order`
      lists them, and the explorer passes exactly when there are fewer than the limit, or only one. */
  lemma StrictAnswer(p: Params, maxWt: nat, stateLimit: int, r: Outcome, order: seq<State>)
    requires Sized(p) && Verdict(p, maxWt, false, stateLimit, r) && Tally(p, maxWt, false, r)
    requires Exhausts(p, false, maxWt, order)
    ensures r.BoundedPass? <==> |order| == 1 || |order| < stateLimit
    ensures r.BoundedPass? ==> r.states == |order|
  {
    match r
    case BoundedPass(_, _, _) =>
      var all: seq<State> :|
        && Exhausts(p, false, maxWt, all) && (forall s :: s in all ==> Fits(p, s))
        && r.states == |all| && r.edges == EdgeCount(p, r.maxWt, all);
      DistinctFits(all, order);
      DistinctFits(order, all);
    case StateLimit(states, edges) =>
      var done, pending: seq<State> :| LimitAt(p, false, maxWt, done, pending, states, edges);
      DistinctFits(done + pending, order);
  }

  lemma StartSearching(p: Params, automatic: bool, maxWt: nat, stateLimit: int)
    requires Sized(p)
    ensures Searching(p, automatic, maxWt, stateLimit, map[Start(p) := None], [], [Start(p)], 0)
  {
    assert [] + [Start(p)] == [Start(p)];
  }

  lemma StartLayered(p: Params, depth: State -> nat)
    ensures Layered(depth, map[Start(p) := None], [], [Start(p)])
  {
    assert [] + [Start(p)] == [Start(p)];
  }

  lemma QueueShifts(done: seq<State>, pending: seq<State>, added: seq<State>)
    requires pending != []
    ensures (done + pending) + added == (done + [pending[0]]) + (pending[1..] + added)
  {
  }

  method Report(p: Params, maxWt: nat, automatic: bool, stateLimit: int, ghost depth: State -> nat,
                predecessor: Predecessors, ghost done: seq<State>, queue: seq<State>, edges: nat, found: Expansion)
      returns (r: Outcome)
    requires Admitted(p) && Sized(p) && queue != [] && Fits(p, queue[0])
    requires Searching(p, automatic, maxWt, stateLimit, predecessor, done, queue, edges)
    requires Measures(p, automatic, depth) && Layered(depth, predecessor, done, queue)
    requires found.Found? && FirstViolation(p, queue[0], maxWt, found.i, found.size, found.epoch)
    ensures Verdict(p, maxWt, automatic, stateLimit, r) && Tally(p, maxWt, automatic, r)
  {
    var state := queue[0];
    assert state == (done + queue)[|done|];
    var last := Entered(found.i, state.wt, state.wt + found.size, found.epoch, state.oldest, state.newest);
    var trace, acts := Trace(p, automatic, maxWt, depth, predecessor, done + queue, state, last);
    r := Counterexample(|predecessor|, edges, trace);
    assert Tally(p, maxWt, automatic, r) by {
      FoundStops(p, automatic, maxWt, predecessor, done, queue, edges);
      FoundTally(p, maxWt, automatic, done, queue, |predecessor|, edges, trace);
    }
    FoundShortest(p, automatic, maxWt, depth, predecessor, done, queue, trace);
    FoundVerdict(p, maxWt, automatic, stateLimit, acts, state, found, r);
  }

  lemma FoundShortest(p: Params, automatic: bool, maxWt: nat, depth: State -> nat, pred: Predecessors, done: seq<State>,
                      queue: seq<State>, trace: seq<Line>)
    requires Sized(p) && Measures(p, automatic, depth)
    requires queue != [] && Discovered(p, automatic, maxWt, pred, done + queue)
    requires Ascending(depth, done + queue)
    requires forall u :: u in done ==> Closed(p, automatic, maxWt, pred.Keys, u)
    requires |trace| == depth(queue[0]) + 1
    ensures Shortest(p, automatic, maxWt, trace)
  {
    forall n: nat | ViolatesAfter(p, automatic, maxWt, n) ensures |trace| <= n + 1 {
      var acts: seq<Action>, s: State, a: Action :|
        && ReducedRun(p, automatic, Start(p), acts, s) && |acts| == n
        && Fits(p, s) && Violates(p, s, a) && s.wt + a.size <= maxWt;
      FoundNearest(p, automatic, maxWt, depth, pred, done, queue, acts, s, a);
    }
  }

  /** The reported counterexample is a shortest one of the protocol itself: without the sorting of
      producers, too, no run comes to a violation within the bound in fewer steps. */
  lemma ShortestCounterexample(p: Params, maxWt: nat, automatic: bool, stateLimit: int, r: Outcome,
                               acts: seq<Action>, s: State, a: Action)
    requires Sized(p) && Verdict(p, maxWt, automatic, stateLimit, r) && r.Counterexample?
    requires Run(p, automatic, Start(p), acts, s) && Fits(p, s)
    requires Violates(p, s, a) && s.wt + a.size <= maxWt
    ensures |r.trace| <= |acts| + 1
  {
    var moves, c := RunToReduced(p, automatic, Start(p), acts, s, Start(p));
    var b := Simulates(p, automatic, s, c, a);
    assert Violates(p, c, b) && c.wt + b.size <= maxWt;
    assert ViolatesAfter(p, automatic, maxWt, |acts|);
  }

  lemma FoundVerdict(p: Params, maxWt: nat, automatic: bool, stateLimit: int, acts: seq<Action>, s: State,
                     found: Expansion, r: Outcome)
    requires Admitted(p) && Sized(p) && Fits(p, s) && ReducedRun(p, automatic, Start(p), acts, s)
    requires found.Found? && FirstViolation(p, s, maxWt, found.i, found.size, found.epoch)
    requires r.Counterexample?
    requires r.trace ==
      TookAll(acts) + [Entered(found.i, s.wt, s.wt + found.size, found.epoch, s.oldest, s.newest)]
    requires Shortest(p, automatic, maxWt, r.trace)
    ensures Verdict(p, maxWt, automatic, stateLimit, r)
  {
    ViolationReached(p, automatic, maxWt, acts, s, found.i, found.size, found.epoch, r.trace);
  }

  lemma PassVerdict(p: Params, maxWt: nat, automatic: bool, stateLimit: int, pred: Predecessors,
                    order: seq<State>, r: Outcome)
    requires Admitted(p) && Sized(p) && r.BoundedPass? && r.maxWt == maxWt
    requires Discovered(p, automatic, r.maxWt, pred, order)
    requires Expanded(p, automatic, r.maxWt, pred.Keys, order, r.edges) && r.states == |pred|
    requires |pred| == 1 || |pred| < stateLimit
    ensures Verdict(p, maxWt, automatic, stateLimit, r) && Tally(p, maxWt, automatic, r)
  {
    SearchComplete(p, automatic, r.maxWt, pred, order);
    assert Exhausts(p, automatic, r.maxWt, order);
  }

  lemma ViolationReached(p: Params, automatic: bool, maxWt: nat, acts: seq<Action>, s: State, i: nat, size: nat,
                         epoch: nat, trace: seq<Line>)
    requires Admitted(p) && Sized(p) && Fits(p, s) && ReducedRun(p, automatic, Start(p), acts, s)
    requires FirstViolation(p, s, maxWt, i, size, epoch)
    requires trace == TookAll(acts) + [Entered(i, s.wt, s.wt + size, epoch, s.oldest, s.newest)]
    ensures ReachesViolation(p, automatic, maxWt) && automatic
    ensures GenuineTrace(p, automatic, maxWt, trace)
  {
    assert TraceOf(p, automatic, maxWt, trace, acts, s, i, size, epoch);
    assert Violates(p, s, Reserve(i, size));
    SymmetryExact(p, automatic, maxWt);
    var t: State, a: Action :| Reachable(p, automatic, t) && Fits(p, t) && Violates(p, t, a) && t.wt + a.size <= maxWt;
    if !automatic {
      QuotaSafety.StrictRunsSafe(p, t);
    }
  }

  lemma NegativeControlFound(p: Params, laps: nat)
    requires Admitted(p) && Sized(p) && laps >= 1
    ensures ReachesViolation(p, true, p.k * p.cap * laps)
  {
    var t, i := QuotaLiveness.AutomaticRefillUnsafe(p);
    MulMonotone(1, laps, p.k * p.cap);
    assert t.wt + Reserve(i, 1).size <= p.k * p.cap * laps;
  }
}
