/** Steps of the fork-join protocol are local: every node that has something to do can do it, whatever
    the others do, and steps at different nodes commute. */
module ForkJoinLocality {
  import opened ForkJoin
  import opened ForkJoinSchedules
  import opened Options

  /** A participant can take a step at `path` exactly when a callback is due there or a child that has
      stored its value has not told its parent. */
  lemma {:induction false} StepsExactly<S, K, V>(p: Program<S, K, V>, t: Node<S, K, V>, path: seq<nat>)
    requires Inv(t)
    ensures Step(p, t, path).Some? <==>
              && Find(t, path).Some?
              && var n := Find(t, path).value; n.Ready? || n.Joining? || (n.Storing? && path != [])
    decreases t
  {
    match t
    case Waiting(_, kids, _) =>
      if path == [] || path[0] >= |kids| {
      } else {
        assert Find(t, path) == Find(kids[path[0]], path[1..]);
        if !kids[path[0]].Storing? {
          StepsExactly(p, kids[path[0]], path[1..]);
        }
      }
    case Joining(_, kids) =>
      if path != [] && path[0] < |kids| {
        assert Find(t, path) == Find(kids[path[0]], path[1..]);
      }
    case _ =>
  }

  lemma {:induction false} TwoUnfinished<S, K, V>(kids: seq<Node<S, K, V>>, i: nat, j: nat)
    requires i < j < |kids| && !kids[i].Finished? && !kids[j].Finished?
    ensures Unfinished(kids) >= 2
  {
    if i == 0 {
      UnfinishedZero(kids[1..]);
      assert kids[1..][j - 1] == kids[j];
    } else {
      TwoUnfinished(kids[1..], i - 1, j - 1);
    }
  }

  /** What a step below child `i` of a waiting node leaves there. */
  function After<S, K, V>(p: Program<S, K, V>, kid: Node<S, K, V>, rest: seq<nat>): Option<Node<S, K, V>> {
    if kid.Storing? then (if rest == [] then Some(Finished(kid.v)) else None) else Step(p, kid, rest)
  }

  lemma StepBelow<S, K, V>(p: Program<S, K, V>, t: Node<S, K, V>, path: seq<nat>)
    requires Inv(t) && t.Waiting?
    ensures Step(p, t, path)
         == if path == [] || path[0] >= |t.kids| || After(p, t.kids[path[0]], path[1..]).None? then None
            else Some(Told(t, path[0], After(p, t.kids[path[0]], path[1..]).value))
  {
    if path != [] && path[0] < |t.kids| && !t.kids[path[0]].Storing? && Step(p, t.kids[path[0]], path[1..]).Some? {
      NotFinished(p, t.kids[path[0]], path[1..]);
    }
  }

  /** A waiting node whose child `i` has become `kid`. */
  function Told<S, K, V>(t: Node<S, K, V>, i: nat, kid: Node<S, K, V>): Node<S, K, V>
    requires t.Waiting? && i < |t.kids| && t.pending > 0
  {
    var kids := t.kids[i := kid];
    if !kid.Finished? then Waiting(t.cont, kids, t.pending)
    else if t.pending == 1 then Joining(t.cont, kids)
    else Waiting(t.cont, kids, t.pending - 1)
  }

  lemma NotFinished<S, K, V>(p: Program<S, K, V>, t: Node<S, K, V>, path: seq<nat>)
    requires Step(p, t, path).Some?
    ensures !Step(p, t, path).value.Finished?
  {
  }

  lemma CommuteApart<S(!new), K(!new), V(!new)>(p: Program<S, K, V>, t: Node<S, K, V>, a: seq<nat>, b: seq<nat>)
    requires WellFounded(p) && Inv(t) && t.Waiting? && a != [] && b != [] && a[0] != b[0]
    requires Step(p, t, a).Some? && Step(p, t, b).Some?
    ensures var u := Step(p, t, a).value;
      && Step(p, u, b).Some? && u.Waiting? && b[0] < |u.kids|
      && Step(p, u, b).value
           == Told(Told(t, a[0], After(p, t.kids[a[0]], a[1..]).value), b[0], After(p, t.kids[b[0]], b[1..]).value)
  {
    var i, j := a[0], b[0];
    StepBelow(p, t, a);
    StepBelow(p, t, b);
    StepInv(p, t, a);
    TwoUnfinished(t.kids, if i < j then i else j, if i < j then j else i);
    StepBelow(p, Step(p, t, a).value, b);
  }

  lemma ToldCommute<S, K, V>(t: Node<S, K, V>, i: nat, kid: Node<S, K, V>, j: nat, other: Node<S, K, V>)
    requires t.Waiting? && i < |t.kids| && j < |t.kids| && i != j && t.pending >= 2
    ensures Told(t, i, kid).Waiting? && Told(t, j, other).Waiting?
    ensures Told(Told(t, i, kid), j, other) == Told(Told(t, j, other), i, kid)
  {
    assert t.kids[i := kid][j := other] == t.kids[j := other][i := kid];
  }

  lemma CommuteSame<S(!new), K(!new), V(!new)>(p: Program<S, K, V>, t: Node<S, K, V>, a: seq<nat>, b: seq<nat>)
    requires WellFounded(p) && Inv(t) && t.Waiting? && a != [] && b != [] && a[0] == b[0]
    requires Step(p, t, a).Some? && !t.kids[a[0]].Storing?
    requires Step(p, Step(p, t.kids[a[0]], a[1..]).value, b[1..]).Some?
    ensures var u := Step(p, t, a).value;
      && Step(p, u, b).Some?
      && var kid := Step(p, Step(p, t.kids[a[0]], a[1..]).value, b[1..]).value;
         Step(p, u, b).value == Waiting(t.cont, t.kids[a[0] := kid], t.pending)
  {
    StepBelow(p, t, a);
    NotFinished(p, t.kids[a[0]], a[1..]);
    NotFinished(p, Step(p, t.kids[a[0]], a[1..]).value, b[1..]);
  }

  /** Steps at two different nodes commute: neither takes the other away, and either order leads to the
      same tree. */
  lemma {:induction false} StepsCommute<S(!new), K(!new), V(!new)>(p: Program<S, K, V>, t: Node<S, K, V>, a: seq<nat>,
                                                                   b: seq<nat>)
    requires WellFounded(p) && Inv(t) && a != b && Step(p, t, a).Some? && Step(p, t, b).Some?
    ensures var afterA, afterB := Step(p, t, a).value, Step(p, t, b).value;
      Step(p, afterA, b).Some? && Step(p, afterA, b) == Step(p, afterB, a)
    decreases t
  {
    if t.Waiting? {
      if a[0] == b[0] {
        assert a == [a[0]] + a[1..] && b == [b[0]] + b[1..];
        StepsCommute(p, t.kids[a[0]], a[1..], b[1..]);
        CommuteSame(p, t, a, b);
        CommuteSame(p, t, b, a);
      } else {
        CommuteApart(p, t, a, b);
        CommuteApart(p, t, b, a);
        TwoWait(p, t, a, b);
        ToldCommute(t, a[0], After(p, t.kids[a[0]], a[1..]).value, b[0], After(p, t.kids[b[0]], b[1..]).value);
      }
    }
  }

  lemma TwoWait<S(!new), K(!new), V(!new)>(p: Program<S, K, V>, t: Node<S, K, V>, a: seq<nat>, b: seq<nat>)
    requires WellFounded(p) && Inv(t) && t.Waiting? && a != [] && b != [] && a[0] != b[0]
    requires Step(p, t, a).Some? && Step(p, t, b).Some?
    ensures t.pending >= 2
    ensures After(p, t.kids[a[0]], a[1..]).Some? && After(p, t.kids[b[0]], b[1..]).Some?
  {
    StepBelow(p, t, a);
    StepBelow(p, t, b);
    TwoUnfinished(t.kids, if a[0] < b[0] then a[0] else b[0], if a[0] < b[0] then b[0] else a[0]);
  }
}
