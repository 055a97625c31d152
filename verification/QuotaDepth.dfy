/** How many steps a state of the reduced quota model is away from the start. */
module QuotaDepth {
  import opened QuotaProtocol
  import opened QuotaSymmetry

  // Least numbers.

  ghost function Least(near: nat -> bool, n: nat): nat {
    if n == 0 || !near(n - 1) then n else Least(near, n - 1)
  }

  lemma {:induction false} LeastFacts(near: nat -> bool, n: nat)
    requires near(n) && forall i: nat, j: nat :: near(i) && i <= j ==> near(j)
    ensures near(Least(near, n)) && forall m: nat :: near(m) ==> Least(near, n) <= m
  {
    if n == 0 || !near(n - 1) {
    } else {
      LeastFacts(near, n - 1);
    }
  }

  // Depths.

  ghost predicate Near(p: Params, automatic: bool, s: State, n: nat)
    requires Sized(p)
  {
    exists acts: seq<Action> :: ReducedRun(p, automatic, Start(p), acts, s) && |acts| <= n
  }

  ghost function Depth(p: Params, automatic: bool, s: State): nat
    requires Sized(p)
  {
    var near := (n: nat) => Near(p, automatic, s, n);
    if exists n: nat :: near(n) then
      var n: nat :| near(n);
      Least(near, n)
    else 0
  }

  /** `depth` gives every state that can be reached the length of a shortest run to it. */
  ghost predicate Measures(p: Params, automatic: bool, depth: State -> nat)
    requires Sized(p)
  {
    && (forall s: State :: ReducedReachable(p, automatic, s) ==> Near(p, automatic, s, depth(s)))
    && forall s: State, n: nat :: Near(p, automatic, s, n) ==> depth(s) <= n
  }

  lemma DepthLeast(p: Params, automatic: bool, s: State, m: nat)
    requires Sized(p) && Near(p, automatic, s, m)
    ensures Near(p, automatic, s, Depth(p, automatic, s)) && Depth(p, automatic, s) <= m
  {
    var near := (n: nat) => Near(p, automatic, s, n);
    assert near(m);
    forall n: nat | near(n) ensures near(Least(near, n)) && Least(near, n) <= m {
      LeastFacts(near, n);
    }
  }

  lemma DepthsExist(p: Params, automatic: bool) returns (depth: State -> nat)
    requires Sized(p)
    ensures Measures(p, automatic, depth)
  {
    depth := (s: State) => Depth(p, automatic, s);
    forall s: State, n: nat {:trigger Near(p, automatic, s, n)} | Near(p, automatic, s, n)
      ensures Near(p, automatic, s, depth(s)) && depth(s) <= n
    {
      DepthLeast(p, automatic, s, n);
    }
    forall s: State | ReducedReachable(p, automatic, s) ensures Near(p, automatic, s, depth(s)) {
      var acts: seq<Action> :| ReducedRun(p, automatic, Start(p), acts, s);
      assert Near(p, automatic, s, |acts|);
    }
  }

  /** No run is shorter than the depth of where it leads. */
  lemma DepthAtMost(p: Params, automatic: bool, depth: State -> nat, acts: seq<Action>, s: State)
    requires Sized(p) && Measures(p, automatic, depth) && ReducedRun(p, automatic, Start(p), acts, s)
    ensures depth(s) <= |acts|
  {
    assert Near(p, automatic, s, |acts|);
  }

  lemma DepthRun(p: Params, automatic: bool, depth: State -> nat, s: State) returns (acts: seq<Action>)
    requires Sized(p) && Measures(p, automatic, depth) && ReducedReachable(p, automatic, s)
    ensures ReducedRun(p, automatic, Start(p), acts, s) && |acts| <= depth(s)
  {
    assert Near(p, automatic, s, depth(s));
    acts :| ReducedRun(p, automatic, Start(p), acts, s) && |acts| <= depth(s);
  }

  lemma DepthStep(p: Params, automatic: bool, depth: State -> nat, s: State, a: Action)
    requires Sized(p) && Measures(p, automatic, depth) && ReducedReachable(p, automatic, s)
    requires Fits(p, s) && CanStep(p, s, a)
    ensures ReducedReachable(p, automatic, Reduced(p, automatic, s, a))
    ensures depth(Reduced(p, automatic, s, a)) <= depth(s) + 1
  {
    var acts := DepthRun(p, automatic, depth, s);
    ReducedRunSnoc(p, automatic, Start(p), acts, s, a);
    DepthAtMost(p, automatic, depth, acts + [a], Reduced(p, automatic, s, a));
  }

  lemma StartDepth(p: Params, automatic: bool, depth: State -> nat)
    requires Sized(p) && Measures(p, automatic, depth)
    ensures ReducedReachable(p, automatic, Start(p)) && depth(Start(p)) == 0
  {
    assert ReducedRun(p, automatic, Start(p), [], Start(p));
    DepthAtMost(p, automatic, depth, [], Start(p));
  }
}
