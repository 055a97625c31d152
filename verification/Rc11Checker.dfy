/** The checker run on one candidate execution, step by step, proved to decide the axioms. */
module Rc11Checker {
  import opened Relations
  import opened Rc11
  import opened Rc11Coherence
  import opened Rc11Interleavings

  /** Reads-from-the-immediate-predecessor, tested update by update. */
  method UpdatesAtomic(x: Exec) returns (ok: bool)
    requires Candidate(x)
    ensures ok <==> Atomic(x)
  {
    for r := 0 to |x.ev|
      invariant forall i :: 0 <= i < r && x.ev[i].kind == U ==> RfPos(x, i) == Pos(x, i) - 1
    {
      if x.ev[r].kind == U && RfPos(x, r) != Pos(x, r) - 1 {
        return false;
      }
    }
    ok := true;
  }

  method ReadsPast(x: Exec) returns (ok: bool)
    requires Candidate(x)
    ensures ok <==> NoFutureRead(x)
  {
    for r := 0 to |x.ev|
      invariant forall i :: 0 <= i < r && i in x.rf && x.rf[i].Ev? ==> x.rf[i].i != i && !InSb(x, i, x.rf[i].i)
    {
      if r in x.rf && x.rf[r].Ev? && (x.rf[r].i == r || InSb(x, r, x.rf[r].i)) {
        return false;
      }
    }
    ok := true;
  }

  /** `heads` are the release heads of `r` at positions above `k`. */
  ghost predicate HeadsAbove(x: Exec, r: nat, k: int, heads: set<nat>)
    requires Candidate(x)
  {
    forall c: nat :: c in heads <==> InSw(x, c, r) && Pos(x, c) > k
  }

  /** Every position above `k` up to the write read holds an update. */
  ghost predicate UpdatesAbove(x: Exec, r: nat, k: int)
    requires Candidate(x) && Reads(x, r)
  {
    0 <= k <= RfPos(x, r) && forall j :: k < j <= RfPos(x, r) ==> UpdateAt(x, x.ev[r].loc, j)
  }

  lemma NoHeadsForInit(x: Exec, r: nat, k: int)
    requires Candidate(x) && Reads(x, r) && k >= RfPos(x, r)
    ensures HeadsAbove(x, r, k, {})
  {
  }

  /** The walk takes the write at `k` and either goes on below it or is complete. */
  lemma WalkStep(x: Exec, r: nat, k: nat, heads: set<nat>)
    requires Candidate(x) && Reads(x, r) && x.ev[r].ord.Acquires()
    requires UpdatesAbove(x, r, k) && HeadsAbove(x, r, k, heads)
    ensures k < |x.mo[x.ev[r].loc]|
    ensures var cand := x.mo[x.ev[r].loc][k];
      && (cand.Ev? ==> cand.i < |x.ev|)
      && var more := if cand.Ev? && x.ev[cand.i].ord.Releases() then heads + {cand.i} else heads;
      && HeadsAbove(x, r, k - 1, more)
      && if cand.Ev? && x.ev[cand.i].kind == U && k > 0 then UpdatesAbove(x, r, k - 1)
         else forall c: nat :: c in more <==> InSw(x, c, r)
  {
    HeadAt(x, r, k);
    if !UpdateAt(x, x.ev[r].loc, k) {
      NoMoreHeads(x, r, k);
    }
  }

  /** Walks modification order back from the write read, over updates, collecting releases. */
  method ReleaseHeads(x: Exec, r: nat) returns (heads: set<nat>)
    requires Candidate(x) && Reads(x, r) && x.ev[r].ord.Acquires()
    ensures forall c: nat :: c in heads <==> InSw(x, c, r)
  {
    heads := {};
    RfPosFacts(x, r);
    NoHeadsForInit(x, r, RfPos(x, r));
    if x.rf[r] == Init {
      WalkStep(x, r, 0, heads);
      return;
    }
    var order := x.mo[x.ev[r].loc];
    var k: nat := IndexOf(order, x.rf[r]);
    while true
      invariant UpdatesAbove(x, r, k) && HeadsAbove(x, r, k, heads)
      decreases k
    {
      WalkStep(x, r, k, heads);
      var cand := order[k];
      if cand.Ev? && x.ev[cand.i].ord.Releases() {
        heads := heads + {cand.i};
      }
      if cand.Ev? && x.ev[cand.i].kind == U && k > 0 {
        k := k - 1;
      } else {
        return;
      }
    }
  }

  /** The write at position `k` is a head when it releases and every later one up to the write
      read is an update; no other write sits there. */
  lemma HeadAt(x: Exec, r: nat, k: nat)
    requires Candidate(x) && Reads(x, r) && x.ev[r].ord.Acquires() && k <= RfPos(x, r)
    requires forall j :: k < j <= RfPos(x, r) ==> UpdateAt(x, x.ev[r].loc, j)
    ensures k < |x.mo[x.ev[r].loc]|
    ensures x.mo[x.ev[r].loc][k].Ev? ==> x.mo[x.ev[r].loc][k].i < |x.ev|
    ensures forall c: nat :: InSw(x, c, r) && Pos(x, c) == k <==>
              x.mo[x.ev[r].loc][k] == Ev(c) && x.ev[c].ord.Releases()
  {
    var l := x.ev[r].loc;
    assert Ordered(x, r);
    RfPosFacts(x, r);
    forall c: nat ensures InSw(x, c, r) && Pos(x, c) == k <==> x.mo[l][k] == Ev(c) && x.ev[c].ord.Releases() {
      if InSw(x, c, r) && Pos(x, c) == k {
        PosFacts(x, c);
      }
      if x.mo[l][k] == Ev(c) {
        IndexUnique(x.mo[l], k);
      }
    }
  }

  lemma NoMoreHeads(x: Exec, r: nat, k: nat)
    requires Candidate(x) && Reads(x, r) && k <= RfPos(x, r)
    requires !UpdateAt(x, x.ev[r].loc, k)
    ensures forall c: nat :: InSw(x, c, r) ==> Pos(x, c) >= k
  {
  }

  method SwEdges(x: Exec) returns (sw: set<Edge>)
    requires Candidate(x)
    ensures sw == Sw(x)
  {
    sw := {};
    for r := 0 to |x.ev|
      invariant forall c: nat, d: nat :: (c, d) in sw <==> d < r && InSw(x, c, d)
    {
      if r in x.rf && x.ev[r].ord.Acquires() {
        var heads := ReleaseHeads(x, r);
        sw := sw + set c | c in heads :: (c, r);
      }
    }
    SameEdges(x, sw);
  }

  lemma SameEdges(x: Exec, sw: set<Edge>)
    requires Candidate(x) && forall c: nat, d: nat :: (c, d) in sw <==> d < |x.ev| && InSw(x, c, d)
    ensures sw == Sw(x)
  {
    forall e: Edge ensures e in sw <==> e in Sw(x) {
      assert (e.0, e.1) in sw <==> (e.0, e.1) in Sw(x);
    }
  }

  method ShapesHold(x: Exec, hb: set<Edge>) returns (ok: bool)
    requires Candidate(x)
    ensures ok <==> Shapes(x, hb)
  {
    for a := 0 to |x.ev|
      invariant forall i: nat, j: nat :: i < a && j < |x.ev| ==> ShapesAt(x, hb, i, j)
    {
      for b := 0 to |x.ev|
        invariant forall j: nat :: j < b ==> ShapesAt(x, hb, a, j)
      {
        if !CoWW(x, hb, a, b) || !CoWR(x, hb, a, b) || !CoRW(x, hb, a, b) || !CoRR(x, hb, a, b) {
          assert !ShapesAt(x, hb, a, b);
          return false;
        }
      }
    }
    ok := true;
  }

  lemma ProgramNodes(x: Exec)
    ensures Nodes(|x.ev|, Sb(x)) && Nodes(|x.ev|, RfEdges(x))
  {
    forall e | e in Sb(x) + RfEdges(x) ensures e.0 < |x.ev| && e.1 < |x.ev| {
      assert (e.0, e.1) in Sb(x) || (e.0, e.1) in RfEdges(x);
    }
  }

  lemma OrderNodes(x: Exec)
    requires Candidate(x)
    ensures Nodes(|x.ev|, Sw(x)) && Nodes(|x.ev|, MoEdges(x)) && Nodes(|x.ev|, FrEdges(x))
  {
    forall e | e in Sw(x) ensures e.0 < |x.ev| && e.1 < |x.ev| {
      assert (e.0, e.1) in Sw(x);
    }
    forall e | e in MoEdges(x) ensures e.0 < |x.ev| && e.1 < |x.ev| {
      assert (e.0, e.1) in MoEdges(x);
    }
    forall e | e in FrEdges(x) ensures e.0 < |x.ev| && e.1 < |x.ev| {
      assert (e.0, e.1) in FrEdges(x);
    }
  }

  lemma EdgesAreNodes(x: Exec)
    requires Candidate(x)
    ensures Nodes(|x.ev|, Sb(x) + Sw(x)) && Nodes(|x.ev|, Sb(x) + RfEdges(x)) && Nodes(|x.ev|, ScGraph(x))
  {
    ProgramNodes(x);
    OrderNodes(x);
  }

  method AcyclicGraph(n: nat, g: set<Edge>) returns (ok: bool)
    requires Nodes(n, g)
    ensures ok <==> Acyclic(g)
  {
    var search := new CycleSearch(n, g);
    var cyclic := search.HasCycle();
    ok := !cyclic;
  }

  /** The checker's verdict on a candidate is the conjunction of the axioms, with coherence in its
      `hb;eco?` form. */
  method Check(x: Exec) returns (accepted: bool)
    requires Candidate(x)
    ensures accepted <==> Consistent(x)
  {
    EdgesAreNodes(x);
    var atomic := UpdatesAtomic(x);
    if !atomic {
      return false;
    }
    var past := ReadsPast(x);
    if !past {
      if NoThinAir(x) {
        NoThinAirNoFutureRead(x);
      }
      return false;
    }
    var sw := SwEdges(x);
    var hb := Closure(|x.ev|, Sb(x) + sw);
    var shapes := ShapesHold(x, hb);
    if !shapes {
      if NoThinAir(x) {
        ShapesAreCoherence(x, hb);
      }
      return false;
    }
    accepted := AcyclicGraph(|x.ev|, Sb(x) + RfEdges(x));
    if accepted {
      ShapesAreCoherence(x, hb);
    }
  }

  /** The [SC] tag: whatever earns it is an interleaving of its threads and would be accepted. */
  method CheckSc(x: Exec) returns (sc: bool)
    requires Candidate(x)
    ensures sc <==> SequentiallyConsistent(x)
    ensures sc ==> Consistent(x)
    ensures sc <==> exists pi: seq<nat> :: Interleaves(x, pi)
  {
    EdgesAreNodes(x);
    sc := AcyclicGraph(|x.ev|, ScGraph(x));
    ScIsInterleaving(x);
    if sc {
      ScPassesAll(x);
    }
  }
}
