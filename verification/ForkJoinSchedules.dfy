/** Every schedule of the fork-join protocol: same value, same number of runs, joins and finishes,
    no deadlock, and joins only after all their children. */
module ForkJoinSchedules {
  import opened ForkJoin
  import opened Options

  /** The value a node will have. */
  ghost function Meaning<S(!new), K(!new), V(!new)>(p: Program<S, K, V>, t: Node<S, K, V>): V
    requires WellFounded(p)
    decreases t, 1
  {
    match t
    case Ready(s) => Eval(p, s)
    case Waiting(c, kids, _) => EvalJoin(p, c, Meanings(p, kids))
    case Joining(c, kids) => EvalJoin(p, c, Meanings(p, kids))
    case Storing(v) => v
    case Finished(v) => v
  }

  ghost function Meanings<S(!new), K(!new), V(!new)>(p: Program<S, K, V>, kids: seq<Node<S, K, V>>): (vs: seq<V>)
    requires WellFounded(p)
    ensures |vs| == |kids|
    decreases kids, 0
  {
    if kids == [] then [] else [Meaning(p, kids[0])] + Meanings(p, kids[1..])
  }

  lemma {:induction false} MeaningsAt<S(!new), K(!new), V(!new)>(p: Program<S, K, V>, kids: seq<Node<S, K, V>>, i: nat)
    requires WellFounded(p) && i < |kids|
    ensures Meanings(p, kids)[i] == Meaning(p, kids[i])
    decreases |kids|
  {
    if i == 0 {
    } else {
      MeaningsAt(p, kids[1..], i - 1);
    }
  }

  lemma MeaningsUpdate<S(!new), K(!new), V(!new)>(p: Program<S, K, V>, kids: seq<Node<S, K, V>>, i: nat,
                                                  kid: Node<S, K, V>)
    requires WellFounded(p) && i < |kids| && Meaning(p, kid) == Meaning(p, kids[i])
    ensures Meanings(p, kids[i := kid]) == Meanings(p, kids)
  {
    forall j | 0 <= j < |kids| ensures Meanings(p, kids[i := kid])[j] == Meanings(p, kids)[j] {
      MeaningsAt(p, kids, j);
      MeaningsAt(p, kids[i := kid], j);
    }
  }

  lemma MeaningsFinished<S(!new), K(!new), V(!new)>(p: Program<S, K, V>, kids: seq<Node<S, K, V>>)
    requires WellFounded(p) && AllFinished(kids)
    ensures Meanings(p, kids) == Values(kids)
  {
    forall j | 0 <= j < |kids| ensures Meanings(p, kids)[j] == Values(kids)[j] {
      MeaningsAt(p, kids, j);
    }
  }

  lemma {:induction false} EvalAllAt<S(!new), K(!new), V(!new)>(p: Program<S, K, V>, kids: seq<S>, bound: nat, i: nat)
    requires WellFounded(p) && i < |kids| && forall j :: 0 <= j < |kids| ==> p.rank(kids[j]) < bound
    ensures EvalAll(p, kids, bound)[i] == Eval(p, kids[i])
    decreases |kids|
  {
    if i == 0 {
    } else {
      EvalAllAt(p, kids[1..], bound, i - 1);
    }
  }

  lemma ForkedMeanings<S(!new), K(!new), V(!new)>(p: Program<S, K, V>, o: Outcome<S, K, V>, bound: nat)
    requires WellFounded(p) && o.Fork? && Descends(p, bound, o)
    ensures Meanings(p, Started(o).kids) == EvalAll(p, o.kids, bound)
  {
    var nodes := Started(o).kids;
    forall j | 0 <= j < |nodes| ensures Meanings(p, nodes)[j] == EvalAll(p, o.kids, bound)[j] {
      MeaningsAt(p, nodes, j);
      EvalAllAt(p, o.kids, bound, j);
    }
  }

  /** No step changes the value a node will have. */
  lemma {:induction false} StepMeaning<S(!new), K(!new), V(!new)>(p: Program<S, K, V>, t: Node<S, K, V>, path: seq<nat>)
    requires WellFounded(p) && Step(p, t, path).Some?
    ensures Meaning(p, Step(p, t, path).value) == Meaning(p, t)
    decreases t
  {
    match t
    case Ready(s) =>
      assert Descends(p, p.rank(s), p.run(s));
      if p.run(s).Fork? {
        ForkedMeanings(p, p.run(s), p.rank(s));
      }
    case Joining(c, kids) =>
      var vs := Values(kids);
      MeaningsFinished(p, kids);
      assert Descends(p, p.contRank(c), p.join(c, vs));
      if p.join(c, vs).Fork? {
        ForkedMeanings(p, p.join(c, vs), p.contRank(c));
      }
    case Waiting(c, kids, pending) =>
      var i := path[0];
      if kids[i].Storing? {
        MeaningsUpdate(p, kids, i, Finished(kids[i].v));
      } else {
        StepMeaning(p, kids[i], path[1..]);
        MeaningsUpdate(p, kids, i, Step(p, kids[i], path[1..]).value);
      }
    case _ =>
  }

  // Steps left, weighted by kind.

  datatype Weights = Weights(run: nat, join: nat, finish: nat)
  {
    function Of(k: Kind): nat {
      match k
      case RunStep => run
      case JoinStep => join
      case FinishStep => finish
    }
  }

  ghost function Cost<S(!new), K(!new), V(!new)>(p: Program<S, K, V>, w: Weights, s: S): nat
    requires WellFounded(p)
    decreases p.rank(s), 2, 0
  {
    assert Descends(p, p.rank(s), p.run(s));
    w.run + OutcomeCost(p, w, p.run(s), p.rank(s))
  }

  ghost function CostJoin<S(!new), K(!new), V(!new)>(p: Program<S, K, V>, w: Weights, c: K, vs: seq<V>): nat
    requires WellFounded(p)
    decreases p.contRank(c), 2, 0
  {
    assert Descends(p, p.contRank(c), p.join(c, vs));
    w.join + OutcomeCost(p, w, p.join(c, vs), p.contRank(c))
  }

  ghost function OutcomeCost<S(!new), K(!new), V(!new)>(p: Program<S, K, V>, w: Weights, o: Outcome<S, K, V>,
                                                        bound: nat): nat
    requires WellFounded(p) && Descends(p, bound, o)
    decreases bound, 1, 0
  {
    match o
    case Complete(_) => w.finish
    case Fork(kids, c) => CostAll(p, w, kids, bound) + CostJoin(p, w, c, EvalAll(p, kids, bound))
  }

  ghost function CostAll<S(!new), K(!new), V(!new)>(p: Program<S, K, V>, w: Weights, kids: seq<S>, bound: nat): nat
    requires WellFounded(p) && forall i :: 0 <= i < |kids| ==> p.rank(kids[i]) < bound
    decreases bound, 0, |kids|
  {
    if kids == [] then 0 else Cost(p, w, kids[0]) + CostAll(p, w, kids[1..], bound)
  }

  /** The weight of the steps a node still needs until its parent has been told. */
  ghost function Left<S(!new), K(!new), V(!new)>(p: Program<S, K, V>, w: Weights, t: Node<S, K, V>): nat
    requires WellFounded(p)
    decreases t, 1
  {
    match t
    case Ready(s) => Cost(p, w, s)
    case Waiting(c, kids, _) => LeftAll(p, w, kids) + CostJoin(p, w, c, Meanings(p, kids))
    case Joining(c, kids) => LeftAll(p, w, kids) + CostJoin(p, w, c, Meanings(p, kids))
    case Storing(_) => w.finish
    case Finished(_) => 0
  }

  ghost function LeftAll<S(!new), K(!new), V(!new)>(p: Program<S, K, V>, w: Weights, kids: seq<Node<S, K, V>>): nat
    requires WellFounded(p)
    decreases kids, 0
  {
    if kids == [] then 0 else Left(p, w, kids[0]) + LeftAll(p, w, kids[1..])
  }

  lemma {:induction false} LeftUpdate<S(!new), K(!new), V(!new)>(p: Program<S, K, V>, w: Weights,
                                                                 kids: seq<Node<S, K, V>>, i: nat, kid: Node<S, K, V>)
    requires WellFounded(p) && i < |kids|
    ensures LeftAll(p, w, kids[i := kid]) + Left(p, w, kids[i]) == LeftAll(p, w, kids) + Left(p, w, kid)
    decreases |kids|
  {
    if i > 0 {
      LeftUpdate(p, w, kids[1..], i - 1, kid);
      assert kids[i := kid][1..] == kids[1..][i - 1 := kid];
    } else {
      assert kids[i := kid][1..] == kids[1..];
    }
  }

  lemma {:induction false} LeftFinished<S(!new), K(!new), V(!new)>(p: Program<S, K, V>, w: Weights,
                                                                   kids: seq<Node<S, K, V>>)
    requires WellFounded(p) && AllFinished(kids)
    ensures LeftAll(p, w, kids) == 0
    decreases |kids|
  {
    if kids == [] {
    } else {
      LeftFinished(p, w, kids[1..]);
    }
  }

  lemma {:induction false} LeftReady<S(!new), K(!new), V(!new)>(p: Program<S, K, V>, w: Weights, kids: seq<S>,
                                                                bound: nat, nodes: seq<Node<S, K, V>>)
    requires WellFounded(p) && |nodes| == |kids|
    requires forall i :: 0 <= i < |kids| ==> p.rank(kids[i]) < bound && nodes[i] == Ready(kids[i])
    ensures LeftAll(p, w, nodes) == CostAll(p, w, kids, bound)
    decreases |kids|
  {
    if kids == [] {
    } else {
      LeftReady(p, w, kids[1..], bound, nodes[1..]);
    }
  }

  lemma StartedLeft<S(!new), K(!new), V(!new)>(p: Program<S, K, V>, w: Weights, o: Outcome<S, K, V>, bound: nat)
    requires WellFounded(p) && Descends(p, bound, o)
    ensures Left(p, w, Started(o)) == OutcomeCost(p, w, o, bound)
  {
    if o.Fork? {
      ForkedMeanings(p, o, bound);
      LeftReady(p, w, o.kids, bound, Started(o).kids);
    }
  }

  /** Each step uses up exactly its own weight. */
  lemma {:induction false} StepLeft<S(!new), K(!new), V(!new)>(p: Program<S, K, V>, w: Weights, t: Node<S, K, V>,
                                                             path: seq<nat>)
    requires WellFounded(p) && Step(p, t, path).Some?
    ensures Left(p, w, t) == Left(p, w, Step(p, t, path).value) + w.Of(KindOf(t, path))
    decreases t
  {
    match t
    case Ready(s) =>
      assert Descends(p, p.rank(s), p.run(s));
      StartedLeft(p, w, p.run(s), p.rank(s));
    case Joining(c, kids) =>
      var vs := Values(kids);
      MeaningsFinished(p, kids);
      LeftFinished(p, w, kids);
      assert Descends(p, p.contRank(c), p.join(c, vs));
      StartedLeft(p, w, p.join(c, vs), p.contRank(c));
    case Waiting(c, kids, pending) =>
      var i := path[0];
      var kid := if kids[i].Storing? then Finished(kids[i].v) else Step(p, kids[i], path[1..]).value;
      if !kids[i].Storing? {
        StepLeft(p, w, kids[i], path[1..]);
        StepMeaning(p, kids[i], path[1..]);
      }
      LeftUpdate(p, w, kids, i, kid);
      MeaningsUpdate(p, kids, i, kid);
    case _ =>
  }

  // Progress.

  lemma {:induction false} SomeUnfinished<S, K, V>(kids: seq<Node<S, K, V>>) returns (i: nat)
    requires Unfinished(kids) > 0
    ensures i < |kids| && !kids[i].Finished?
  {
    if !kids[0].Finished? {
      i := 0;
    } else {
      i := SomeUnfinished(kids[1..]);
      i := i + 1;
    }
  }

  /** Until its value is stored, some participant can always take a step below a node. */
  lemma {:induction false} Progress<S(!new), K(!new), V(!new)>(p: Program<S, K, V>, t: Node<S, K, V>)
      returns (path: seq<nat>)
    requires WellFounded(p) && Inv(t) && !t.Storing? && !t.Finished?
    ensures Step(p, t, path).Some?
    decreases t
  {
    match t
    case Ready(_) => path := [];
    case Joining(_, _) => path := [];
    case Waiting(_, kids, _) =>
      var i := SomeUnfinished(kids);
      if kids[i].Storing? {
        path := [i];
      } else {
        var rest := Progress(p, kids[i]);
        path := [i] + rest;
        assert path[1..] == rest;
      }
  }

  // Whole schedules.

  /** The steps of one kind, weighted, along a schedule. */
  ghost function Spent<S, K, V>(p: Program<S, K, V>, w: Weights, t: Node<S, K, V>, schedule: seq<seq<nat>>): nat
    decreases |schedule|
  {
    if schedule == [] || Step(p, t, schedule[0]).None? then 0
    else w.Of(KindOf(t, schedule[0])) + Spent(p, w, Step(p, t, schedule[0]).value, schedule[1..])
  }

  lemma {:induction false} RunKeeps<S(!new), K(!new), V(!new)>(p: Program<S, K, V>, w: Weights, t: Node<S, K, V>,
                                                             schedule: seq<seq<nat>>, u: Node<S, K, V>)
    requires WellFounded(p) && Inv(t) && !t.Finished? && Run(p, t, schedule, u)
    ensures Inv(u) && !u.Finished? && Meaning(p, u) == Meaning(p, t)
    ensures Spent(p, w, t, schedule) + Left(p, w, u) == Left(p, w, t)
    decreases |schedule|
  {
    if schedule == [] {
    } else {
      StepInv(p, t, schedule[0]);
      StepMeaning(p, t, schedule[0]);
      StepLeft(p, w, t, schedule[0]);
      RunKeeps(p, w, Step(p, t, schedule[0]).value, schedule[1..], u);
    }
  }

  ghost predicate Stuck<S, K, V>(p: Program<S, K, V>, t: Node<S, K, V>) {
    forall path: seq<nat> :: Step(p, t, path).None?
  }

  /** Determinism of every schedule: where no step is left, the root holds the value of the
      depth-first evaluation, and the runs, joins and finishes taken, weighted in any way, come
      to a number that does not depend on the schedule. */
  lemma EveryScheduleAgrees<S(!new), K(!new), V(!new)>(p: Program<S, K, V>, w: Weights, s: S,
                                                       schedule: seq<seq<nat>>, u: Node<S, K, V>)
    requires WellFounded(p) && Run(p, Ready(s), schedule, u) && Stuck(p, u)
    ensures u == Storing(Eval(p, s))
    ensures Spent(p, w, Ready(s), schedule) + w.finish == Cost(p, w, s)
  {
    RunKeeps(p, w, Ready(s), schedule, u);
    if !u.Storing? {
      var path := Progress(p, u);
      assert false;
    }
  }

  /** Safety of every schedule, complete or not: counters count, the pending work is exactly what
      the schedule has not spent, and a schedule is never longer than the work there is. */
  lemma EveryScheduleSafe<S(!new), K(!new), V(!new)>(p: Program<S, K, V>, s: S, schedule: seq<seq<nat>>,
                                                     u: Node<S, K, V>)
    requires WellFounded(p) && Run(p, Ready(s), schedule, u)
    ensures Inv(u) && Meaning(p, u) == Eval(p, s)
    ensures |schedule| + Left(p, Weights(1, 1, 1), u) == Cost(p, Weights(1, 1, 1), s)
  {
    RunKeeps(p, Weights(1, 1, 1), Ready(s), schedule, u);
    SpentLength(p, Ready(s), schedule, u);
  }

  lemma {:induction false} SpentLength<S, K, V>(p: Program<S, K, V>, t: Node<S, K, V>, schedule: seq<seq<nat>>,
                                                u: Node<S, K, V>)
    requires Run(p, t, schedule, u)
    ensures Spent(p, Weights(1, 1, 1), t, schedule) == |schedule|
    decreases |schedule|
  {
    if schedule == [] {
    } else {
      SpentLength(p, Step(p, t, schedule[0]).value, schedule[1..], u);
    }
  }

  /** Termination: every schedule, however it began, can be carried to the end. */
  lemma {:induction false} EveryScheduleCompletes<S(!new), K(!new), V(!new)>(p: Program<S, K, V>, t: Node<S, K, V>)
      returns (rest: seq<seq<nat>>)
    requires WellFounded(p) && Inv(t) && !t.Finished?
    ensures Run(p, t, rest, Storing(Meaning(p, t)))
    decreases Left(p, Weights(1, 1, 1), t)
  {
    if t.Storing? {
      return [];
    }
    var path := Progress(p, t);
    StepInv(p, t, path);
    StepMeaning(p, t, path);
    StepLeft(p, Weights(1, 1, 1), t, path);
    var more := EveryScheduleCompletes(p, Step(p, t, path).value);
    rest := [path] + more;
    assert rest[1..] == more;
  }

  // Joins, node by node.

  /** The node at `path`, if there is one. */
  function Find<S, K, V>(t: Node<S, K, V>, path: seq<nat>): Option<Node<S, K, V>>
    decreases |path|
  {
    if path == [] then Some(t)
    else if (t.Waiting? || t.Joining?) && path[0] < |t.kids| then Find(t.kids[path[0]], path[1..])
    else None
  }

  /** A join runs only when every child of that fork has finished, wherever the node is. */
  lemma {:induction false} JoinAfterChildren<S, K, V>(t: Node<S, K, V>, path: seq<nat>)
    requires Inv(t) && Find(t, path).Some? && Find(t, path).value.Joining?
    ensures AllFinished(Find(t, path).value.kids)
    decreases |path|
  {
    if path == [] {
    } else {
      JoinAfterChildren(t.kids[path[0]], path[1..]);
    }
  }

  /** Forks whose join has not run yet. */
  function Open<S, K, V>(t: Node<S, K, V>): nat
    decreases t, 1
  {
    if t.Waiting? || t.Joining? then 1 + OpenAll(t.kids) else 0
  }

  function OpenAll<S, K, V>(kids: seq<Node<S, K, V>>): nat
    decreases kids, 0
  {
    if kids == [] then 0 else Open(kids[0]) + OpenAll(kids[1..])
  }

  lemma {:induction false} OpenUpdate<S, K, V>(kids: seq<Node<S, K, V>>, i: nat, kid: Node<S, K, V>)
    requires i < |kids|
    ensures OpenAll(kids[i := kid]) + Open(kids[i]) == OpenAll(kids) + Open(kid)
    decreases |kids|
  {
    if i > 0 {
      OpenUpdate(kids[1..], i - 1, kid);
      assert kids[i := kid][1..] == kids[1..][i - 1 := kid];
    } else {
      assert kids[i := kid][1..] == kids[1..];
    }
  }

  lemma {:induction false} OpenNone<S, K, V>(kids: seq<Node<S, K, V>>)
    requires forall i :: 0 <= i < |kids| ==> kids[i].Finished? || kids[i].Ready?
    ensures OpenAll(kids) == 0
    decreases |kids|
  {
    if kids == [] {
    } else {
      OpenNone(kids[1..]);
    }
  }

  /** The callback taken at `path` forks. */
  function Forks<S, K, V>(p: Program<S, K, V>, t: Node<S, K, V>, path: seq<nat>): bool
    requires Step(p, t, path).Some?
    decreases t
  {
    match t
    case Ready(s) => p.run(s).Fork?
    case Joining(c, kids) => p.join(c, Values(kids)).Fork?
    case Waiting(_, kids, _) => !kids[path[0]].Storing? && Forks(p, kids[path[0]], path[1..])
    case _ => false
  }

  function One(b: bool): nat { if b then 1 else 0 }

  lemma {:induction false} StepOpen<S, K, V>(p: Program<S, K, V>, t: Node<S, K, V>, path: seq<nat>)
    requires Step(p, t, path).Some?
    ensures Open(Step(p, t, path).value) + One(KindOf(t, path).JoinStep?) == Open(t) + One(Forks(p, t, path))
    decreases t
  {
    match t
    case Ready(s) =>
      if p.run(s).Fork? {
        OpenNone(Started(p.run(s)).kids);
      }
    case Joining(c, kids) =>
      OpenNone(kids);
      if p.join(c, Values(kids)).Fork? {
        OpenNone(Started(p.join(c, Values(kids))).kids);
      }
    case Waiting(_, kids, _) =>
      var i := path[0];
      if kids[i].Storing? {
        OpenUpdate(kids, i, Finished(kids[i].v));
      } else {
        StepOpen(p, kids[i], path[1..]);
        OpenUpdate(kids, i, Step(p, kids[i], path[1..]).value);
      }
    case _ =>
  }

  function ForksTaken<S, K, V>(p: Program<S, K, V>, t: Node<S, K, V>, schedule: seq<seq<nat>>): nat
    decreases |schedule|
  {
    if schedule == [] || Step(p, t, schedule[0]).None? then 0
    else One(Forks(p, t, schedule[0])) + ForksTaken(p, Step(p, t, schedule[0]).value, schedule[1..])
  }

  /** In total over the tree the forks taken are the joins taken and the forks still open, and none is
      open once the root's value is stored. */
  lemma {:induction false} JoinsMatchForks<S, K, V>(p: Program<S, K, V>, t: Node<S, K, V>, schedule: seq<seq<nat>>,
                                                    u: Node<S, K, V>)
    requires Run(p, t, schedule, u)
    ensures ForksTaken(p, t, schedule) + Open(t) == Spent(p, Weights(0, 1, 0), t, schedule) + Open(u)
    ensures t.Ready? && u.Storing? ==> ForksTaken(p, t, schedule) == Spent(p, Weights(0, 1, 0), t, schedule)
    decreases |schedule|
  {
    if schedule == [] {
    } else {
      StepOpen(p, t, schedule[0]);
      JoinsMatchForks(p, Step(p, t, schedule[0]).value, schedule[1..], u);
    }
  }

  // Joins and forks, frame by frame.

  /** There is a fork at `q` whose join has not run yet. */
  predicate OpenAt<S, K, V>(t: Node<S, K, V>, q: seq<nat>) {
    Find(t, q).Some? && (Find(t, q).value.Waiting? || Find(t, q).value.Joining?)
  }

  lemma QuietKids<S, K, V>(t: Node<S, K, V>, q: seq<nat>)
    requires (t.Waiting? || t.Joining?) && q != []
    requires forall i :: 0 <= i < |t.kids| ==> t.kids[i].Ready? || t.kids[i].Finished?
    ensures !OpenAt(t, q)
  {
    if q[0] < |t.kids| {
      assert Find(t, q) == Find(t.kids[q[0]], q[1..]);
    }
  }

  lemma {:induction false} StepOpenAt<S, K, V>(p: Program<S, K, V>, t: Node<S, K, V>, path: seq<nat>, q: seq<nat>)
    requires Step(p, t, path).Some?
    ensures One(OpenAt(Step(p, t, path).value, q)) + One(path == q && KindOf(t, path).JoinStep?)
         == One(OpenAt(t, q)) + One(path == q && Forks(p, t, path))
    decreases t
  {
    var u := Step(p, t, path).value;
    match t
    case Ready(_) =>
      if u.Waiting? && q != [] {
        QuietKids(u, q);
      }
    case Joining(_, _) =>
      if q != [] {
        QuietKids(t, q);
      }
      if u.Waiting? && q != [] {
        QuietKids(u, q);
      }
    case Waiting(_, kids, _) =>
      if q != [] && q[0] < |kids| {
        assert Find(t, q) == Find(kids[q[0]], q[1..]) && Find(u, q) == Find(u.kids[q[0]], q[1..]);
        assert path == q <==> path[0] == q[0] && path[1..] == q[1..] by {
          assert path == [path[0]] + path[1..] && q == [q[0]] + q[1..];
        }
        if !kids[path[0]].Storing? && q[0] == path[0] {
          StepOpenAt(p, kids[path[0]], path[1..], q[1..]);
        }
      }
    case _ =>
  }

  function ForksAt<S, K, V>(p: Program<S, K, V>, t: Node<S, K, V>, schedule: seq<seq<nat>>, q: seq<nat>): nat
    decreases |schedule|
  {
    if schedule == [] || Step(p, t, schedule[0]).None? then 0
    else
      One(schedule[0] == q && Forks(p, t, schedule[0]))
      + ForksAt(p, Step(p, t, schedule[0]).value, schedule[1..], q)
  }

  function JoinsAt<S, K, V>(p: Program<S, K, V>, t: Node<S, K, V>, schedule: seq<seq<nat>>, q: seq<nat>): nat
    decreases |schedule|
  {
    if schedule == [] || Step(p, t, schedule[0]).None? then 0
    else
      One(schedule[0] == q && KindOf(t, schedule[0]).JoinStep?)
      + JoinsAt(p, Step(p, t, schedule[0]).value, schedule[1..], q)
  }

  /** Along any schedule, finished or not, each fork of each frame is answered by exactly one join of
      that frame: its forks are its joins plus one while the last fork is open. */
  lemma {:induction false} OneJoinPerFork<S, K, V>(p: Program<S, K, V>, t: Node<S, K, V>, schedule: seq<seq<nat>>,
                                                   u: Node<S, K, V>, q: seq<nat>)
    requires Run(p, t, schedule, u)
    ensures ForksAt(p, t, schedule, q) + One(OpenAt(t, q)) == JoinsAt(p, t, schedule, q) + One(OpenAt(u, q))
    ensures t.Ready? && u.Storing? ==> ForksAt(p, t, schedule, q) == JoinsAt(p, t, schedule, q)
    decreases |schedule|
  {
    if schedule == [] {
    } else {
      StepOpenAt(p, t, schedule[0], q);
      OneJoinPerFork(p, Step(p, t, schedule[0]).value, schedule[1..], u, q);
    }
  }
}
