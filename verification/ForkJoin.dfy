/** The pending-counter protocol of fork and join: any participant takes the next step of any
    node, the last child to finish runs its parent's join, and a join may fork again. Every
    schedule of a program gives the same value in the same number of steps of each kind. */
module ForkJoin {
  import opened Options

  /** What a callback returns: `Complete` for `af_complete` (or a join's null), `Fork` for
      `af_fork` with the children's frames and what the join will continue from. */
  datatype Outcome<S, K, V> = Complete(v: V) | Fork(kids: seq<S>, cont: K)

  /** `rank` and `contRank` witness that the tree of tasks is finite. */
  datatype Program<!S, !K, !V> = Program(
    run: S -> Outcome<S, K, V>,
    join: (K, seq<V>) -> Outcome<S, K, V>,
    rank: S -> nat,
    contRank: K -> nat)

  ghost predicate Descends<S(!new), K(!new), V(!new)>(p: Program<S, K, V>, bound: nat, o: Outcome<S, K, V>) {
    o.Fork? ==>
      && o.kids != []
      && p.contRank(o.cont) < bound
      && forall i :: 0 <= i < |o.kids| ==> p.rank(o.kids[i]) < bound
  }

  ghost predicate WellFounded<S(!new), K(!new), V(!new)>(p: Program<S, K, V>) {
    && (forall s :: Descends(p, p.rank(s), p.run(s)))
    && (forall c, vs :: Descends(p, p.contRank(c), p.join(c, vs)))
  }

  // The value a task computes, run depth first on one thread.

  ghost function Eval<S(!new), K(!new), V(!new)>(p: Program<S, K, V>, s: S): V
    requires WellFounded(p)
    decreases p.rank(s), 1, 0
  {
    assert Descends(p, p.rank(s), p.run(s));
    match p.run(s)
    case Complete(v) => v
    case Fork(kids, c) => EvalJoin(p, c, EvalAll(p, kids, p.rank(s)))
  }

  ghost function EvalJoin<S(!new), K(!new), V(!new)>(p: Program<S, K, V>, c: K, vs: seq<V>): V
    requires WellFounded(p)
    decreases p.contRank(c), 1, 0
  {
    assert Descends(p, p.contRank(c), p.join(c, vs));
    match p.join(c, vs)
    case Complete(v) => v
    case Fork(kids, c') => EvalJoin(p, c', EvalAll(p, kids, p.contRank(c)))
  }

  ghost function EvalAll<S(!new), K(!new), V(!new)>(p: Program<S, K, V>, kids: seq<S>, bound: nat): (vs: seq<V>)
    requires WellFounded(p) && forall i :: 0 <= i < |kids| ==> p.rank(kids[i]) < bound
    ensures |vs| == |kids|
    decreases bound, 0, |kids|
  {
    if kids == [] then [] else [Eval(p, kids[0])] + EvalAll(p, kids[1..], bound)
  }

  // Configurations.

  datatype Node<S, K, V> =
    | Ready(s: S)                                             // admitted, its run not yet taken
    | Waiting(cont: K, kids: seq<Node<S, K, V>>, pending: nat) // `pending` kids still have to report
    | Joining(cont: K, kids: seq<Node<S, K, V>>)              // the last child's thread runs the join
    | Storing(v: V)                                           // value written, parent not yet told
    | Finished(v: V)                                          // parent's counter decremented

  function Started<S, K, V>(o: Outcome<S, K, V>): Node<S, K, V> {
    match o
    case Complete(v) => Storing(v)
    case Fork(kids, c) => Waiting(c, seq(|kids|, i requires 0 <= i < |kids| => Ready(kids[i])), |kids|)
  }

  predicate AllFinished<S, K, V>(kids: seq<Node<S, K, V>>) {
    forall i :: 0 <= i < |kids| ==> kids[i].Finished?
  }

  function Values<S, K, V>(kids: seq<Node<S, K, V>>): (vs: seq<V>)
    requires AllFinished(kids)
    ensures |vs| == |kids| && forall i :: 0 <= i < |vs| ==> vs[i] == kids[i].v
  {
    seq(|kids|, i requires 0 <= i < |kids| => kids[i].v)
  }

  datatype Kind = RunStep | JoinStep | FinishStep

  /** The step taken at `path` by whichever participant gets there, if one is possible. A finished
      child decrements its parent's counter, and the one that takes it to zero starts the join. */
  function Step<S, K, V>(p: Program<S, K, V>, t: Node<S, K, V>, path: seq<nat>): Option<Node<S, K, V>>
    decreases t
  {
    match t
    case Ready(s) => if path == [] then Some(Started(p.run(s))) else None
    case Joining(c, kids) =>
      if path == [] && AllFinished(kids) then Some(Started(p.join(c, Values(kids)))) else None
    case Waiting(c, kids, pending) =>
      if path == [] || path[0] >= |kids| then None
      else if kids[path[0]].Storing? then
        if |path| == 1 && pending > 0 then
          var told := kids[path[0] := Finished(kids[path[0]].v)];
          Some(if pending == 1 then Joining(c, told) else Waiting(c, told, pending - 1))
        else None
      else
        (match Step(p, kids[path[0]], path[1..])
         case None => None
         case Some(kid) => Some(Waiting(c, kids[path[0] := kid], pending)))
    case Storing(_) => None
    case Finished(_) => None
  }

  function KindOf<S, K, V>(t: Node<S, K, V>, path: seq<nat>): Kind
    decreases t
  {
    match t
    case Joining(_, _) => JoinStep
    case Waiting(_, kids, _) =>
      if path == [] || path[0] >= |kids| then RunStep
      else if kids[path[0]].Storing? then FinishStep else KindOf(kids[path[0]], path[1..])
    case _ => RunStep
  }

  ghost predicate Run<S, K, V>(p: Program<S, K, V>, t: Node<S, K, V>, schedule: seq<seq<nat>>, u: Node<S, K, V>)
    decreases |schedule|
  {
    if schedule == [] then t == u
    else Step(p, t, schedule[0]).Some? && Run(p, Step(p, t, schedule[0]).value, schedule[1..], u)
  }

  // The invariant.

  ghost function Unfinished<S, K, V>(kids: seq<Node<S, K, V>>): nat {
    if kids == [] then 0 else (if kids[0].Finished? then 0 else 1) + Unfinished(kids[1..])
  }

  /** Every counter is the number of children that have not finished, and a join starts only when
      none is left. */
  ghost predicate Inv<S, K, V>(t: Node<S, K, V>)
    decreases t
  {
    match t
    case Waiting(_, kids, pending) =>
      && pending == Unfinished(kids) && pending > 0
      && forall i :: 0 <= i < |kids| ==> Inv(kids[i])
    case Joining(_, kids) => kids != [] && AllFinished(kids)
    case _ => true
  }

  lemma {:induction false} UnfinishedUpdate<S, K, V>(kids: seq<Node<S, K, V>>, i: nat, kid: Node<S, K, V>)
    requires i < |kids|
    ensures Unfinished(kids[i := kid]) + (if kids[i].Finished? then 0 else 1)
         == Unfinished(kids) + (if kid.Finished? then 0 else 1)
  {
    if i > 0 {
      UnfinishedUpdate(kids[1..], i - 1, kid);
      assert kids[i := kid][1..] == kids[1..][i - 1 := kid];
    } else {
      assert kids[i := kid][1..] == kids[1..];
    }
  }

  lemma {:induction false} UnfinishedZero<S, K, V>(kids: seq<Node<S, K, V>>)
    ensures Unfinished(kids) == 0 <==> AllFinished(kids)
  {
    if kids == [] {
    } else {
      UnfinishedZero(kids[1..]);
      if AllFinished(kids) {
        assert AllFinished(kids[1..]);
      }
    }
  }

  lemma {:induction false} UnfinishedAll<S, K, V>(kids: seq<Node<S, K, V>>)
    requires forall i :: 0 <= i < |kids| ==> kids[i].Ready?
    ensures Unfinished(kids) == |kids|
  {
    if kids == [] {
    } else {
      UnfinishedAll(kids[1..]);
    }
  }

  lemma StartedInv<S(!new), K(!new), V(!new)>(p: Program<S, K, V>, o: Outcome<S, K, V>, bound: nat)
    requires Descends(p, bound, o)
    ensures Inv(Started(o)) && !Started(o).Finished? && !Started(o).Ready?
  {
    if o.Fork? {
      UnfinishedAll(Started(o).kids);
    }
  }

  lemma {:induction false} StepInv<S(!new), K(!new), V(!new)>(p: Program<S, K, V>, t: Node<S, K, V>, path: seq<nat>)
    requires WellFounded(p) && Inv(t) && Step(p, t, path).Some?
    ensures Inv(Step(p, t, path).value) && !Step(p, t, path).value.Finished?
    ensures !t.Finished?
    decreases t
  {
    match t
    case Ready(s) => StartedInv(p, p.run(s), p.rank(s));
    case Joining(c, kids) => StartedInv(p, p.join(c, Values(kids)), p.contRank(c));
    case Waiting(c, kids, pending) =>
      var i := path[0];
      if kids[i].Storing? {
        UnfinishedUpdate(kids, i, Finished(kids[i].v));
        UnfinishedZero(kids[i := Finished(kids[i].v)]);
      } else {
        StepInv(p, kids[i], path[1..]);
        UnfinishedUpdate(kids, i, Step(p, kids[i], path[1..]).value);
      }
    case _ =>
  }
}
