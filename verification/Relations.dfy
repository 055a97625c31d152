/** Finite binary relations over event numbers: paths, transitive closure as the fixpoint loop
    computes it, and cycle detection by depth-first colouring. */
module Relations {

  type Edge = (nat, nat)

  ghost predicate EdgeAt(g: set<Edge>, p: seq<nat>, i: nat)
    requires i + 1 < |p|
  {
    (p[i], p[i + 1]) in g
  }

  ghost predicate Chain(g: set<Edge>, p: seq<nat>) {
    forall i :: 0 <= i < |p| - 1 ==> EdgeAt(g, p, i)
  }

  ghost predicate IsPath(g: set<Edge>, p: seq<nat>) {
    |p| >= 2 && Chain(g, p)
  }

  ghost predicate PathFrom(g: set<Edge>, p: seq<nat>, a: nat, b: nat) {
    IsPath(g, p) && p[0] == a && p[|p| - 1] == b
  }

  /** `b` can be reached from `a` by one or more edges. */
  ghost predicate Reach(g: set<Edge>, a: nat, b: nat) {
    exists p: seq<nat> :: PathFrom(g, p, a, b)
  }

  ghost predicate Acyclic(g: set<Edge>) {
    forall a: nat :: !Reach(g, a, a)
  }

  ghost predicate Transitive(r: set<Edge>) {
    forall a: nat, b: nat, c: nat :: (a, b) in r && (b, c) in r ==> (a, c) in r
  }

  lemma ReachEdge(g: set<Edge>, a: nat, b: nat)
    requires (a, b) in g
    ensures Reach(g, a, b)
  {
    assert PathFrom(g, [a, b], a, b);
  }

  lemma ReachTrans(g: set<Edge>, a: nat, b: nat, c: nat)
    requires Reach(g, a, b) && Reach(g, b, c)
    ensures Reach(g, a, c)
  {
    var p: seq<nat> :| PathFrom(g, p, a, b);
    var q: seq<nat> :| PathFrom(g, q, b, c);
    var r := p + q[1..];
    forall i | 0 <= i < |r| - 1 ensures EdgeAt(g, r, i) {
      if i < |p| - 1 {
        assert EdgeAt(g, p, i);
      } else {
        assert EdgeAt(g, q, i - (|p| - 1));
      }
    }
    assert PathFrom(g, r, a, c);
  }

  lemma Shorten(g: set<Edge>, p: seq<nat>)
    requires Chain(g, p) && |p| > 0
    ensures Chain(g, p[..|p| - 1])
  {
    var q := p[..|p| - 1];
    forall i | 0 <= i < |q| - 1 ensures EdgeAt(g, q, i) {
      assert EdgeAt(g, p, i);
    }
  }

  /** A relation that contains every edge and is closed under composition contains every path. */
  lemma {:induction false} PathWithin(g: set<Edge>, p: seq<nat>, a: nat, b: nat, r: set<Edge>)
    requires PathFrom(g, p, a, b) && g <= r && Transitive(r)
    ensures (a, b) in r
    decreases |p|
  {
    assert EdgeAt(g, p, |p| - 2);
    if |p| <= 2 {
    } else {
      Shorten(g, p);
      PathWithin(g, p[..|p| - 1], a, p[|p| - 2], r);
    }
  }

  lemma ReachWithin(g: set<Edge>, a: nat, b: nat, r: set<Edge>)
    requires Reach(g, a, b) && g <= r && Transitive(r)
    ensures (a, b) in r
  {
    var p: seq<nat> :| PathFrom(g, p, a, b);
    PathWithin(g, p, a, b, r);
  }

  lemma {:induction false} PathThrough(g: set<Edge>, p: seq<nat>, a: nat, b: nat, h: set<Edge>)
    requires PathFrom(g, p, a, b) && forall u: nat, v: nat :: (u, v) in g ==> Reach(h, u, v)
    ensures Reach(h, a, b)
    decreases |p|
  {
    assert EdgeAt(g, p, |p| - 2);
    if |p| <= 2 {
    } else {
      Shorten(g, p);
      PathThrough(g, p[..|p| - 1], a, p[|p| - 2], h);
      ReachTrans(h, a, p[|p| - 2], b);
    }
  }

  /** If every edge of `g` is a path of `h`, so is every path of `g`. */
  lemma ReachThrough(g: set<Edge>, h: set<Edge>, a: nat, b: nat)
    requires Reach(g, a, b) && forall u: nat, v: nat :: (u, v) in g ==> Reach(h, u, v)
    ensures Reach(h, a, b)
  {
    var p: seq<nat> :| PathFrom(g, p, a, b);
    PathThrough(g, p, a, b, h);
  }

  lemma ReachMonotone(g: set<Edge>, h: set<Edge>, a: nat, b: nat)
    requires Reach(g, a, b) && g <= h
    ensures Reach(h, a, b)
  {
    var p: seq<nat> :| PathFrom(g, p, a, b);
    forall i | 0 <= i < |p| - 1 ensures EdgeAt(h, p, i) {
      assert EdgeAt(g, p, i);
    }
    assert PathFrom(h, p, a, b);
  }

  lemma AcyclicMonotone(g: set<Edge>, h: set<Edge>)
    requires Acyclic(h) && g <= h
    ensures Acyclic(g)
  {
    forall a: nat ensures !Reach(g, a, a) {
      if Reach(g, a, a) {
        ReachMonotone(g, h, a, a);
      }
    }
  }

  /** A numbering that falls along every edge rules out cycles. */
  lemma {:induction false} RankFalls(g: set<Edge>, rank: map<nat, nat>, p: seq<nat>)
    requires IsPath(g, p) && Ranked(g, rank)
    ensures p[0] in rank && p[|p| - 1] in rank && rank[p[|p| - 1]] < rank[p[0]]
    decreases |p|
  {
    assert EdgeAt(g, p, |p| - 2) && EdgeAt(g, p, 0);
    if |p| <= 2 {
    } else {
      Shorten(g, p);
      RankFalls(g, rank, p[..|p| - 1]);
    }
  }

  ghost predicate Ranked(g: set<Edge>, rank: map<nat, nat>) {
    forall e :: e in g ==> e.0 in rank && e.1 in rank && rank[e.1] < rank[e.0]
  }

  lemma RankedAcyclic(g: set<Edge>, rank: map<nat, nat>)
    requires Ranked(g, rank)
    ensures Acyclic(g)
  {
    forall a: nat ensures !Reach(g, a, a) {
      if Reach(g, a, a) {
        var p: seq<nat> :| PathFrom(g, p, a, a);
        RankFalls(g, rank, p);
      }
    }
  }

  // The happens-before loop.

  function Composed(hb: set<Edge>): (c: set<Edge>)
    ensures forall a: nat, b: nat, c': nat :: (a, b) in hb && (b, c') in hb ==> (a, c') in c
    ensures forall e :: e in c ==> exists b: nat :: (e.0, b) in hb && (b, e.1) in hb
  {
    var c := set e, f | e in hb && f in hb && e.1 == f.0 :: (e.0, f.1);
    assert forall a: nat, b: nat, c': nat :: (a, b) in hb && (b, c') in hb ==> (a, c') in c by {
      forall a: nat, b: nat, c': nat | (a, b) in hb && (b, c') in hb ensures (a, c') in c {
        var e, f: Edge := (a, b), (b, c');
        assert e in hb && f in hb && e.1 == f.0;
      }
    }
    c
  }

  ghost predicate Nodes(n: nat, g: set<Edge>) {
    forall e :: e in g ==> e.0 < n && e.1 < n
  }

  ghost function Square(n: nat): (all: set<Edge>)
    ensures forall e: Edge :: e in all <==> e.0 < n && e.1 < n
  {
    set a: nat, b: nat | a < n && b < n :: (a, b)
  }

  ghost predicate OnlyPaths(base: set<Edge>, hb: set<Edge>) {
    forall e :: e in hb ==> Reach(base, e.0, e.1)
  }

  lemma ComposedPaths(base: set<Edge>, hb: set<Edge>)
    requires OnlyPaths(base, hb)
    ensures OnlyPaths(base, hb + Composed(hb))
  {
    forall e | e in Composed(hb) ensures Reach(base, e.0, e.1) {
      var b: nat :| (e.0, b) in hb && (b, e.1) in hb;
      assert Reach(base, (e.0, b).0, (e.0, b).1) && Reach(base, (b, e.1).0, (b, e.1).1);
      ReachTrans(base, e.0, b, e.1);
    }
  }

  /** `hb` is reachability over `base`, and so the least transitive relation containing it. */
  ghost predicate IsClosure(base: set<Edge>, hb: set<Edge>) {
    forall a: nat, b: nat :: (a, b) in hb <==> Reach(base, a, b)
  }

  lemma ClosureLeast(base: set<Edge>, hb: set<Edge>)
    requires IsClosure(base, hb)
    ensures base <= hb && Transitive(hb)
    ensures forall r: set<Edge> :: base <= r && Transitive(r) ==> hb <= r
  {
    forall e | e in base ensures e in hb {
      ReachEdge(base, e.0, e.1);
      assert (e.0, e.1) in hb;
    }
    forall a: nat, b: nat, c: nat | (a, b) in hb && (b, c) in hb ensures (a, c) in hb {
      ReachTrans(base, a, b, c);
    }
    forall r: set<Edge> | base <= r && Transitive(r) ensures hb <= r {
      forall e | e in hb ensures e in r {
        assert Reach(base, e.0, e.1);
        ReachWithin(base, e.0, e.1, r);
      }
    }
  }

  lemma ClosureFromLoop(base: set<Edge>, hb: set<Edge>)
    requires base <= hb && OnlyPaths(base, hb) && Composed(hb) <= hb
    ensures IsClosure(base, hb)
  {
    assert Transitive(hb);
    forall a: nat, b: nat ensures (a, b) in hb <==> Reach(base, a, b) {
      if (a, b) in hb {
        assert Reach(base, (a, b).0, (a, b).1);
      }
      if Reach(base, a, b) {
        ReachWithin(base, a, b, hb);
      }
    }
  }

  lemma CloseStep(n: nat, base: set<Edge>, hb: set<Edge>)
    requires Nodes(n, hb) && OnlyPaths(base, hb)
    ensures Nodes(n, hb + Composed(hb)) && OnlyPaths(base, hb + Composed(hb))
    ensures !(Composed(hb) <= hb) ==> Square(n) - (hb + Composed(hb)) < Square(n) - hb
  {
    ComposedPaths(base, hb);
    forall e | e in Composed(hb) ensures e.0 < n && e.1 < n {
      var b: nat :| (e.0, b) in hb && (b, e.1) in hb;
      assert (e.0, b).0 < n && (b, e.1).1 < n;
    }
    if !(Composed(hb) <= hb) {
      var e :| e in Composed(hb) && e !in hb;
      assert e in Square(n) - hb && e !in Square(n) - (hb + Composed(hb));
    }
  }

  lemma CloseStart(base: set<Edge>)
    ensures OnlyPaths(base, base)
  {
    forall e | e in base ensures Reach(base, e.0, e.1) {
      ReachEdge(base, e.0, e.1);
    }
  }

  /** Adds compositions until none is new. */
  method Closure(n: nat, base: set<Edge>) returns (hb: set<Edge>)
    requires Nodes(n, base)
    ensures IsClosure(base, hb)
  {
    hb := base;
    CloseStart(base);
    var changed := true;
    while changed
      invariant base <= hb && Nodes(n, hb) && OnlyPaths(base, hb)
      invariant !changed ==> Composed(hb) <= hb
      decreases Square(n) - hb, changed
    {
      changed := false;
      var more := Composed(hb);
      CloseStep(n, base, hb);
      if !(more <= hb) {
        hb := hb + more;
        changed := true;
      }
    }
    ClosureFromLoop(base, hb);
  }

  // Depth-first colouring.

  datatype Color = Grey | Black

  function UpTo(n: nat): (s: set<nat>)
    ensures |s| == n && forall v: nat :: v in s <==> v < n
  {
    if n == 0 then {} else UpTo(n - 1) + {n - 1}
  }

  lemma {:induction false} SubsetSize(a: set<nat>, b: set<nat>)
    requires a <= b
    ensures |a| <= |b|
  {
    if a == {} {
    } else {
      var x :| x in a;
      SubsetSize(a - {x}, b - {x});
    }
  }

  lemma ColorRoom(n: nat, g: set<Edge>, color: map<nat, Color>, rank: map<nat, nat>, stack: seq<nat>, u: nat)
    requires Coloring(n, g, color, rank, stack) && u !in color && u < n
    ensures |color| < n && u !in stack
  {
    forall v | v in color ensures v < n {
      assert NodeOk(n, color, rank, stack, v);
    }
    assert NodeOk(n, color, rank, stack, u);
    SubsetSize(color.Keys + {u}, UpTo(n));
    assert |color| == |color.Keys|;
  }

  lemma ColorGrew(a: map<nat, Color>, b: map<nat, Color>, u: nat)
    requires u !in a && a.Keys + {u} <= b.Keys
    ensures |a| < |b|
  {
    SubsetSize(a.Keys + {u}, b.Keys);
    assert |a| == |a.Keys| && |b| == |b.Keys|;
  }

  ghost predicate NodeOk(n: nat, color: map<nat, Color>, rank: map<nat, nat>, stack: seq<nat>, u: nat) {
    && (u in color ==> u < n)
    && (u in color && color[u] == Grey <==> u in stack)
    && (u in color && color[u] == Black <==> u in rank)
    && (u in rank ==> rank[u] < |rank|)
  }

  ghost predicate EdgeOk(n: nat, g: set<Edge>, rank: map<nat, nat>, e: Edge) {
    e in g ==> e.0 < n && e.1 < n && (e.0 in rank ==> e.1 in rank && rank[e.1] < rank[e.0])
  }

  /** Grey nodes are the path being explored; black ones lead only to black nodes of lower rank. */
  ghost predicate Coloring(n: nat, g: set<Edge>, color: map<nat, Color>, rank: map<nat, nat>, stack: seq<nat>) {
    && (forall u: nat :: NodeOk(n, color, rank, stack, u))
    && (forall e: Edge :: EdgeOk(n, g, rank, e))
    && Chain(g, stack)
  }

  lemma StackCycle(g: set<Edge>, stack: seq<nat>, v: nat)
    requires stack != [] && v in stack && (stack[|stack| - 1], v) in g && Chain(g, stack)
    ensures !Acyclic(g)
  {
    var i :| 0 <= i < |stack| && stack[i] == v;
    var p := stack[i..] + [v];
    forall j | 0 <= j < |p| - 1 ensures EdgeAt(g, p, j) {
      if j < |p| - 2 {
        assert EdgeAt(g, stack, i + j);
      }
    }
    assert PathFrom(g, p, v, v);
    assert Reach(g, v, v);
  }

  lemma EnterNode(n: nat, g: set<Edge>, color: map<nat, Color>, rank: map<nat, nat>, stack: seq<nat>, u: nat)
    requires Coloring(n, g, color, rank, stack) && u < n && u !in color
    requires stack != [] ==> (stack[|stack| - 1], u) in g
    ensures Coloring(n, g, color[u := Grey], rank, stack + [u])
  {
    var path, color' := stack + [u], color[u := Grey];
    forall v: nat ensures NodeOk(n, color', rank, path, v) {
      assert NodeOk(n, color, rank, stack, v);
    }
    forall i | 0 <= i < |path| - 1 ensures EdgeAt(g, path, i) {
      if i < |stack| - 1 {
        assert EdgeAt(g, stack, i);
      }
    }
  }

  lemma LeaveNode(n: nat, g: set<Edge>, color: map<nat, Color>, rank: map<nat, nat>, stack: seq<nat>, u: nat)
    requires Coloring(n, g, color, rank, stack + [u]) && u !in stack
    requires forall e :: e in g && e.0 == u ==> e.1 in color && color[e.1] == Black
    ensures u !in rank && Coloring(n, g, color[u := Black], rank[u := |rank|], stack)
  {
    var path, color', rank' := stack + [u], color[u := Black], rank[u := |rank|];
    assert u in path && NodeOk(n, color, rank, path, u);
    forall v: nat ensures NodeOk(n, color', rank', stack, v) {
      assert NodeOk(n, color, rank, path, v);
    }
    forall e: Edge ensures EdgeOk(n, g, rank', e) {
      assert EdgeOk(n, g, rank, e);
      if e in g {
        assert NodeOk(n, color, rank, path, e.1);
        if e.0 in rank {
          assert NodeOk(n, color, rank, path, e.0);
        }
      }
    }
    Shorten(g, path);
    assert path[..|path| - 1] == stack;
  }

  class CycleSearch {
    const n: nat
    const g: set<Edge>
    var color: map<nat, Color>
    ghost var rank: map<nat, nat>

    constructor (n: nat, g: set<Edge>)
      requires Nodes(n, g)
      ensures this.n == n && this.g == g && Valid([])
      ensures color == map[]
    {
      this.n, this.g := n, g;
      color, rank := map[], map[];
    }

    function Successors(u: nat): (s: set<nat>) {
      set e | e in g && e.0 == u :: e.1
    }

    ghost predicate Valid(stack: seq<nat>)
      reads this
    {
      Coloring(n, g, color, rank, stack)
    }

    /** Explores `u`, the end of the grey path. Without a cycle, `u` and all it leads to end up
        black and the rest of the colouring stands. */
    method Dfs(u: nat, ghost stack: seq<nat>) returns (found: bool)
      requires Valid(stack) && u < n && u !in color
      requires stack != [] ==> (stack[|stack| - 1], u) in g
      modifies this
      ensures found ==> !Acyclic(g)
      ensures !found ==>
                && Valid(stack) && u in color && color[u] == Black
                && old(color.Keys) <= color.Keys
                && forall v :: v in old(color) ==> color[v] == old(color)[v]
      decreases n - |color|
    {
      ghost var color0 := color;
      ColorRoom(n, g, color, rank, stack, u);
      EnterNode(n, g, color, rank, stack, u);
      color := color[u := Grey];
      ghost var path := stack + [u];
      var todo := Successors(u);
      while todo != {}
        invariant Valid(path) && todo <= Successors(u)
        invariant color0.Keys + {u} <= color.Keys
        invariant forall v :: v in color0 ==> color[v] == color0[v]
        invariant forall v :: v in Successors(u) && v !in todo ==> v in color && color[v] == Black
        decreases todo
      {
        var v :| v in todo;
        todo := todo - {v};
        assert (u, v) in g && EdgeOk(n, g, rank, (u, v)) && NodeOk(n, color, rank, path, v);
        if v in color && color[v] == Grey {
          StackCycle(g, path, v);
          return true;
        }
        if v !in color {
          ColorGrew(color0, color, u);
          var deeper := Dfs(v, path);
          if deeper {
            return true;
          }
        }
      }
      forall e | e in g && e.0 == u ensures e.1 in color && color[e.1] == Black {
        assert e.1 in Successors(u);
      }
      LeaveNode(n, g, color, rank, stack, u);
      color := color[u := Black];
      rank := rank[u := |rank|];
      found := false;
    }

    /** Starts a search from every node left uncoloured, sharing one colour map. */
    method HasCycle() returns (found: bool)
      requires Valid([]) && color == map[]
      modifies this
      ensures found <==> !Acyclic(g)
    {
      for i := 0 to n
        invariant Valid([])
        invariant forall v :: 0 <= v < i ==> v in color
      {
        if i !in color {
          var deeper := Dfs(i, []);
          if deeper {
            return true;
          }
        }
      }
      AllBlack(n, g, color, rank);
      RankedAcyclic(g, rank);
      found := false;
    }
  }

  lemma AllBlack(n: nat, g: set<Edge>, color: map<nat, Color>, rank: map<nat, nat>)
    requires Coloring(n, g, color, rank, []) && forall v :: 0 <= v < n ==> v in color
    ensures Ranked(g, rank)
  {
    forall e | e in g ensures e.0 in rank && e.1 in rank && rank[e.1] < rank[e.0] {
      assert EdgeOk(n, g, rank, e) && NodeOk(n, color, rank, [], e.0);
    }
  }
}
