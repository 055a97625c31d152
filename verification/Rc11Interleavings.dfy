/** Sequential consistency as it is usually meant: some interleaving of the threads in which every read
    sees the latest write. */
module Rc11Interleavings {
  import opened Relations
  import opened Rc11
  import opened Rc11Coherence

  // Ordering an acyclic relation.

  ghost function Ancestors(g: set<Edge>, nodes: set<nat>, v: nat): set<nat> {
    set u | u in nodes && Reach(g, u, v)
  }

  /** Some node has no predecessor among the nodes. */
  lemma {:induction false} Source(g: set<Edge>, nodes: set<nat>, v: nat) returns (m: nat)
    requires Acyclic(g) && v in nodes
    ensures m in nodes && forall u :: u in nodes ==> (u, m) !in g
    decreases |Ancestors(g, nodes, v)|
  {
    if u :| u in nodes && (u, v) in g {
      ReachEdge(g, u, v);
      forall w | w in Ancestors(g, nodes, u) ensures w in Ancestors(g, nodes, v) {
        ReachTrans(g, w, u, v);
      }
      SubsetSize(Ancestors(g, nodes, u), Ancestors(g, nodes, v) - {u});
      m := Source(g, nodes, u);
    } else {
      m := v;
    }
  }

  predicate Distinct(pi: seq<nat>) {
    forall i, j :: 0 <= i < j < |pi| ==> pi[i] != pi[j]
  }

  /** `pi` lists the nodes, each once. */
  ghost predicate Lists(pi: seq<nat>, nodes: set<nat>) {
    Distinct(pi) && forall v: nat :: v in pi <==> v in nodes
  }

  /** No edge leads backwards in `pi`. */
  ghost predicate Forward(g: set<Edge>, pi: seq<nat>) {
    forall i, j :: 0 <= i < j < |pi| ==> (pi[j], pi[i]) !in g
  }

  lemma {:induction false} Sorted(g: set<Edge>, nodes: set<nat>) returns (pi: seq<nat>)
    requires Acyclic(g)
    ensures Lists(pi, nodes) && Forward(g, pi)
    decreases nodes
  {
    if nodes == {} {
      pi := [];
    } else {
      var v :| v in nodes;
      var m := Source(g, nodes, v);
      var rest := Sorted(g, nodes - {m});
      pi := [m] + rest;
      assert forall i :: 0 < i < |pi| ==> pi[i] == rest[i - 1] && rest[i - 1] in rest;
    }
  }

  function Index(pi: seq<nat>, v: nat): (i: nat)
    requires v in pi
    ensures i < |pi| && pi[i] == v
  {
    if pi[0] == v then 0 else 1 + Index(pi[1..], v)
  }

  /** An order that every edge follows rules out cycles. */
  lemma ForwardAcyclic(g: set<Edge>, pi: seq<nat>)
    requires forall e :: e in g ==> e.0 in pi && e.1 in pi && Index(pi, e.0) < Index(pi, e.1)
    ensures Acyclic(g)
  {
    var rank := map v | v in pi :: |pi| - Index(pi, v);
    RankedAcyclic(g, rank);
  }

  // Interleavings.

  predicate WritesTo(x: Exec, i: nat, l: Loc) {
    Writes(x, i) && x.ev[i].loc == l
  }

  /** The latest write to `l` among the first `n` events of the interleaving. */
  function Latest(x: Exec, pi: seq<nat>, l: Loc, n: nat): Src
    requires n <= |pi|
  {
    if n == 0 then Init else if WritesTo(x, pi[n - 1], l) then Ev(pi[n - 1]) else Latest(x, pi, l, n - 1)
  }

  /** `pi` interleaves the threads: it keeps each thread's order, every read sees the latest write, and
      the writes of a location come in its modification order. */
  ghost predicate Interleaves(x: Exec, pi: seq<nat>)
    requires Candidate(x)
  {
    && Distinct(pi) && (forall v: nat :: v in pi <==> v < |x.ev|)
    && (forall i, j :: 0 <= i < j < |pi| ==> KeepsOrder(x, pi[i], pi[j]))
    && forall n :: 0 <= n < |pi| ==> SeesLatest(x, pi, n)
  }

  predicate KeepsOrder(x: Exec, a: nat, b: nat)
    requires Candidate(x)
  {
    && a < |x.ev| && b < |x.ev|
    && (x.ev[a].tid == x.ev[b].tid ==> x.ev[a].idx <= x.ev[b].idx)
    && (Writes(x, a) && Writes(x, b) && SameLoc(x, a, b) ==> Pos(x, a) < Pos(x, b))
  }

  predicate SeesLatest(x: Exec, pi: seq<nat>, n: nat)
    requires n < |pi|
  {
    pi[n] < |x.ev| && (Reads(x, pi[n]) ==> pi[n] in x.rf && x.rf[pi[n]] == Latest(x, pi, x.ev[pi[n]].loc, n))
  }

  lemma {:induction false} LatestFacts(x: Exec, pi: seq<nat>, l: Loc, n: nat) returns (k: nat)
    requires n <= |pi|
    ensures k <= n && forall i :: k <= i < n ==> !WritesTo(x, pi[i], l)
    ensures if k == 0 then Latest(x, pi, l, n) == Init
            else Latest(x, pi, l, n) == Ev(pi[k - 1]) && WritesTo(x, pi[k - 1], l)
  {
    if n == 0 || WritesTo(x, pi[n - 1], l) {
      k := n;
    } else {
      k := LatestFacts(x, pi, l, n - 1);
    }
  }

  // From an acyclic graph to an interleaving.

  lemma ForwardKeeps(x: Exec, pi: seq<nat>, i: nat, j: nat)
    requires Candidate(x) && Forward(ScGraph(x), pi) && Distinct(pi) && i < j < |pi|
    requires pi[i] < |x.ev| && pi[j] < |x.ev|
    ensures KeepsOrder(x, pi[i], pi[j])
  {
    var a, b := pi[i], pi[j];
    assert (b, a) !in Sb(x) && (b, a) !in MoEdges(x);
    if Writes(x, a) && Writes(x, b) && SameLoc(x, a, b) {
      PosDistinct(x, a, b);
    }
  }

  lemma ForwardSees(x: Exec, pi: seq<nat>, n: nat)
    requires Candidate(x) && Acyclic(ScGraph(x)) && Forward(ScGraph(x), pi) && Distinct(pi) && n < |pi|
    requires forall v: nat :: v in pi <==> v < |x.ev|
    ensures SeesLatest(x, pi, n)
  {
    var r := pi[n];
    assert r in pi;
    if Reads(x, r) {
      var k := LatestFacts(x, pi, x.ev[r].loc, n);
      RfPosFacts(x, r);
      if x.rf[r].Ev? {
        var s := SourceBefore(x, pi, n);
        forall i | 0 <= i < |pi| ensures pi[i] < |x.ev| {
          assert pi[i] in pi;
        }
        LatestIsSource(x, pi, n, s, k);
      } else if k > 0 {
        PosFacts(x, pi[k - 1]);
      }
    }
  }

  /** `k` being where the latest write ends, it is the one read. */
  lemma LatestIsSource(x: Exec, pi: seq<nat>, n: nat, s: nat, k: nat)
    requires Candidate(x) && Forward(ScGraph(x), pi) && Distinct(pi) && s < n < |pi| && k <= n
    requires Reads(x, pi[n]) && x.rf[pi[n]] == Ev(pi[s]) && forall i :: 0 <= i < |pi| ==> pi[i] < |x.ev|
    requires forall i :: k <= i < n ==> !WritesTo(x, pi[i], x.ev[pi[n]].loc)
    requires k > 0 ==> WritesTo(x, pi[k - 1], x.ev[pi[n]].loc)
    ensures k == s + 1
  {
    RfPosFacts(x, pi[n]);
    assert WritesTo(x, pi[s], x.ev[pi[n]].loc);
    if k > 0 {
      NothingBetween(x, pi, n, k - 1);
    }
    if s + 1 < k {
      ForwardKeeps(x, pi, s, k - 1);
    }
  }

  /** The write a read takes its value from comes before it. */
  lemma SourceBefore(x: Exec, pi: seq<nat>, n: nat) returns (k: nat)
    requires Candidate(x) && Acyclic(ScGraph(x)) && Forward(ScGraph(x), pi) && n < |pi|
    requires (forall v: nat :: v in pi <==> v < |x.ev|) && Reads(x, pi[n]) && x.rf[pi[n]].Ev?
    ensures k < n && pi[k] == x.rf[pi[n]].i
  {
    var r, g := pi[n], ScGraph(x);
    RfPosFacts(x, r);
    var w := x.rf[r].i;
    assert InRf(x, w, r) && (w, r) in g && w in pi;
    k := Index(pi, w);
    if k == n {
      ReachEdge(g, w, r);
      assert false;
    }
  }

  /** A write that comes before a read is not after the one it takes its value from. */
  lemma NothingBetween(x: Exec, pi: seq<nat>, n: nat, k: nat)
    requires Candidate(x) && Forward(ScGraph(x), pi) && k < n < |pi| && Distinct(pi)
    requires Reads(x, pi[n]) && WritesTo(x, pi[k], x.ev[pi[n]].loc)
    ensures Pos(x, pi[k]) <= RfPos(x, pi[n])
  {
    assert (pi[n], pi[k]) !in FrEdges(x);
    assert !InFr(x, pi[n], pi[k]);
  }

  // And back.

  lemma RfForward(x: Exec, pi: seq<nat>, i: nat, j: nat)
    requires Candidate(x) && Interleaves(x, pi) && i < |pi| && j < |pi| && InRf(x, pi[i], pi[j])
    ensures i < j
  {
    assert SeesLatest(x, pi, j);
    var k := LatestFacts(x, pi, x.ev[pi[j]].loc, j);
  }

  /** A write that comes before a read is not after the one it sees. */
  lemma SeenOrEarlier(x: Exec, pi: seq<nat>, n: nat, k: nat)
    requires Candidate(x) && Interleaves(x, pi) && k < n < |pi|
    requires Reads(x, pi[n]) && WritesTo(x, pi[k], x.ev[pi[n]].loc)
    ensures Pos(x, pi[k]) <= RfPos(x, pi[n])
  {
    assert SeesLatest(x, pi, n);
    var m := LatestFacts(x, pi, x.ev[pi[n]].loc, n);
    RfPosFacts(x, pi[n]);
    assert k < m - 1 ==> KeepsOrder(x, pi[k], pi[m - 1]);
  }

  /** Nothing but reads-from could lead backwards, and it does not either. */
  lemma NoneBack(x: Exec, pi: seq<nat>, i: nat, j: nat)
    requires Candidate(x) && Interleaves(x, pi) && i < j < |pi|
    ensures !InSb(x, pi[j], pi[i]) && !InMo(x, pi[j], pi[i]) && !InFr(x, pi[j], pi[i])
  {
    assert KeepsOrder(x, pi[i], pi[j]);
    if Reads(x, pi[j]) && WritesTo(x, pi[i], x.ev[pi[j]].loc) {
      SeenOrEarlier(x, pi, j, i);
    }
  }

  lemma InterleavingForward(x: Exec, pi: seq<nat>, a: nat, b: nat)
    requires Candidate(x) && Interleaves(x, pi) && (a, b) in ScGraph(x)
    ensures a in pi && b in pi && Index(pi, a) < Index(pi, b)
  {
    assert a < |x.ev| && b < |x.ev|;
    var i, j := Index(pi, a), Index(pi, b);
    if InRf(x, a, b) {
      RfForward(x, pi, i, j);
    } else if j < i {
      NoneBack(x, pi, j, i);
    }
  }

  function FirstNodes(n: nat): (nodes: set<nat>)
    ensures forall v: nat :: v in nodes <==> v < n
  {
    if n == 0 then {} else {n - 1} + FirstNodes(n - 1)
  }

  lemma ForwardInterleaves(x: Exec, pi: seq<nat>)
    requires Candidate(x) && Acyclic(ScGraph(x)) && Forward(ScGraph(x), pi) && Distinct(pi)
    requires forall v: nat :: v in pi <==> v < |x.ev|
    ensures Interleaves(x, pi)
  {
    forall i, j | 0 <= i < j < |pi| ensures KeepsOrder(x, pi[i], pi[j]) {
      assert pi[i] in pi && pi[j] in pi;
      ForwardKeeps(x, pi, i, j);
    }
    forall n | 0 <= n < |pi| ensures SeesLatest(x, pi, n) {
      ForwardSees(x, pi, n);
    }
  }

  /** The last graph is acyclic exactly when the execution is an interleaving of its threads. */
  lemma ScIsInterleaving(x: Exec)
    requires Candidate(x)
    ensures SequentiallyConsistent(x) <==> exists pi: seq<nat> :: Interleaves(x, pi)
  {
    if SequentiallyConsistent(x) {
      var pi := Sorted(ScGraph(x), FirstNodes(|x.ev|));
      ForwardInterleaves(x, pi);
    }
    if exists pi: seq<nat> :: Interleaves(x, pi) {
      var pi: seq<nat> :| Interleaves(x, pi);
      forall e | e in ScGraph(x) ensures e.0 in pi && e.1 in pi && Index(pi, e.0) < Index(pi, e.1) {
        assert (e.0, e.1) in ScGraph(x);
        InterleavingForward(x, pi, e.0, e.1);
      }
      ForwardAcyclic(ScGraph(x), pi);
    }
  }

  // Consequences for the tests beside it.

  /** A graph without cycles leaves every update next to the write it reads. */
  lemma ScIsAtomic(x: Exec)
    requires Candidate(x) && SequentiallyConsistent(x)
    ensures Atomic(x)
  {
    forall u | 0 <= u < |x.ev| && x.ev[u].kind == U ensures RfPos(x, u) == Pos(x, u) - 1 {
      UpdateIsNext(x, u);
    }
  }

  lemma UpdateIsNext(x: Exec, u: nat)
    requires Candidate(x) && SequentiallyConsistent(x) && u < |x.ev| && x.ev[u].kind == U
    ensures RfPos(x, u) == Pos(x, u) - 1
  {
    var g, l := ScGraph(x), x.ev[u].loc;
    PosFacts(x, u);
    RfPosFacts(x, u);
    if RfPos(x, u) >= Pos(x, u) {
      var w := x.rf[u].i;
      assert InRf(x, w, u) && (w, u) in g;
      ReachEdge(g, w, u);
      if w != u {
        PosDistinct(x, u, w);
        assert InMo(x, u, w) && (u, w) in g;
        ReachEdge(g, u, w);
        ReachTrans(g, u, w, u);
      }
      assert false;
    } else if RfPos(x, u) < Pos(x, u) - 1 {
      assert Ordered(x, u);
      var b := x.mo[l][Pos(x, u) - 1].i;
      IndexUnique(x.mo[l], Pos(x, u) - 1);
      assert InFr(x, u, b) && (u, b) in g && InMo(x, b, u) && (b, u) in g;
      ReachEdge(g, u, b);
      ReachEdge(g, b, u);
      ReachTrans(g, u, b, u);
      assert false;
    }
  }

  /** So whatever passes the last test passes all the others. */
  lemma ScPassesAll(x: Exec)
    requires Candidate(x) && SequentiallyConsistent(x)
    ensures Consistent(x)
  {
    ScIsAtomic(x);
    ScImpliesConsistent(x);
  }
}
