/** Candidate executions of a finite program under RC11 without SC accesses, and the axioms the
    litmus checker tests on them. */
module Rc11 {
  import opened Relations

  datatype Kind = R | W | U
  datatype Ord = Rlx | Acq | Rel | AcqRel
  {
    predicate Acquires() {
      Acq? || AcqRel?
    }

    predicate Releases() {
      Rel? || AcqRel?
    }
  }

  datatype Loc = Sq(e: nat) | Es(e: nat) | Sent | Sd0 | Live0

  /** What a write stores; `Cas` stores 0 over a 1. */
  datatype Op = NoWrite | Store(value: int) | Increment | Cas

  datatype Event = Event(tid: nat, idx: nat, kind: Kind, loc: Loc, ord: Ord, op: Op)

  /** The write a read takes its value from: the initial one or an event. */
  datatype Src = Init | Ev(i: nat)

  datatype Exec = Exec(ev: seq<Event>, rf: map<nat, Src>, mo: map<Loc, seq<Src>>)

  predicate Reads(x: Exec, i: nat) {
    i < |x.ev| && x.ev[i].kind != W
  }

  predicate Writes(x: Exec, i: nat) {
    i < |x.ev| && x.ev[i].kind != R
  }

  predicate SameLoc(x: Exec, i: nat, j: nat)
    requires i < |x.ev| && j < |x.ev|
  {
    x.ev[i].loc == x.ev[j].loc
  }

  /** Position of `w` in a modification order. */
  function IndexOf(order: seq<Src>, w: Src): (k: nat)
    ensures w in order ==> k < |order| && order[k] == w
    ensures k <= |order|
  {
    if order == [] || order[0] == w then 0 else 1 + IndexOf(order[1..], w)
  }

  /** `order` is the initial write followed by the location's writes, each once. */
  ghost predicate OrderOk(x: Exec, l: Loc, order: seq<Src>) {
    && order != [] && order[0] == Init
    && (forall j, k :: 0 <= j < k < |order| ==> order[j] != order[k])
    && (forall k :: 1 <= k < |order| ==> order[k].Ev? && Writes(x, order[k].i) && x.ev[order[k].i].loc == l)
    && forall i :: 0 <= i < |x.ev| && Writes(x, i) && x.ev[i].loc == l ==> Ev(i) in order
  }

  ghost predicate Ordered(x: Exec, i: nat) {
    i < |x.ev| && x.ev[i].loc in x.mo ==> OrderOk(x, x.ev[i].loc, x.mo[x.ev[i].loc])
  }

  ghost predicate Sourced(x: Exec, r: nat) {
    r in x.rf && x.rf[r].Ev? ==> r < |x.ev| && Writes(x, x.rf[r].i) && SameLoc(x, r, x.rf[r].i)
  }

  /** One of the enumerated choices of read-from and modification order. */
  ghost predicate Candidate(x: Exec) {
    && (forall i :: 0 <= i < |x.ev| ==> x.ev[i].loc in x.mo)
    && (forall r :: r in x.rf <==> Reads(x, r))
    && (forall i: nat :: Ordered(x, i))
    && (forall r: nat :: Sourced(x, r))
  }

  /** Position of a write in its location's order, and of the write a read takes its value from. */
  function Pos(x: Exec, i: nat): nat
    requires i < |x.ev| && x.ev[i].loc in x.mo
  {
    IndexOf(x.mo[x.ev[i].loc], Ev(i))
  }

  function RfPos(x: Exec, r: nat): nat
    requires r < |x.ev| && x.ev[r].loc in x.mo && r in x.rf
  {
    IndexOf(x.mo[x.ev[r].loc], x.rf[r])
  }

  lemma IndexUnique(order: seq<Src>, k: nat)
    requires k < |order| && forall i, j :: 0 <= i < j < |order| ==> order[i] != order[j]
    ensures IndexOf(order, order[k]) == k
  {
    var n := IndexOf(order, order[k]);
    assert order[n] == order[k];
  }

  /** Positions of writes are positive and tell writes of a location apart. */
  lemma PosFacts(x: Exec, i: nat)
    requires Candidate(x) && Writes(x, i)
    ensures 1 <= Pos(x, i) < |x.mo[x.ev[i].loc]| && x.mo[x.ev[i].loc][Pos(x, i)] == Ev(i)
  {
    assert Ordered(x, i);
  }

  lemma PosDistinct(x: Exec, i: nat, j: nat)
    requires Candidate(x) && Writes(x, i) && Writes(x, j) && SameLoc(x, i, j)
    ensures Pos(x, i) == Pos(x, j) <==> i == j
  {
    PosFacts(x, i);
    PosFacts(x, j);
  }

  lemma RfPosFacts(x: Exec, r: nat)
    requires Candidate(x) && Reads(x, r)
    ensures x.rf[r] == Init ==> RfPos(x, r) == 0
    ensures x.rf[r].Ev? ==>
              && Writes(x, x.rf[r].i) && SameLoc(x, r, x.rf[r].i)
              && RfPos(x, r) == Pos(x, x.rf[r].i)
    ensures RfPos(x, r) < |x.mo[x.ev[r].loc]| && x.mo[x.ev[r].loc][RfPos(x, r)] == x.rf[r]
  {
    assert Ordered(x, r) && Sourced(x, r);
    if x.rf[r].Ev? {
      PosFacts(x, x.rf[r].i);
    }
  }

  // Relations over events.

  predicate InSb(x: Exec, i: nat, j: nat) {
    i < |x.ev| && j < |x.ev| && x.ev[i].tid == x.ev[j].tid && x.ev[i].idx < x.ev[j].idx
  }

  function Sb(x: Exec): (g: set<Edge>)
    ensures forall i: nat, j: nat :: (i, j) in g <==> InSb(x, i, j)
  {
    set i: nat, j: nat | i < |x.ev| && j < |x.ev| && InSb(x, i, j) :: (i, j)
  }

  predicate InRf(x: Exec, w: nat, r: nat) {
    r < |x.ev| && r in x.rf && x.rf[r] == Ev(w) && w < |x.ev|
  }

  function RfEdges(x: Exec): (g: set<Edge>)
    ensures forall i: nat, j: nat :: (i, j) in g <==> InRf(x, i, j)
  {
    set i: nat, j: nat | i < |x.ev| && j < |x.ev| && InRf(x, i, j) :: (i, j)
  }

  predicate InMo(x: Exec, a: nat, b: nat)
    requires Candidate(x)
  {
    Writes(x, a) && Writes(x, b) && SameLoc(x, a, b) && Pos(x, a) < Pos(x, b)
  }

  function MoEdges(x: Exec): (g: set<Edge>)
    requires Candidate(x)
    ensures forall i: nat, j: nat :: (i, j) in g <==> InMo(x, i, j)
  {
    set i: nat, j: nat | i < |x.ev| && j < |x.ev| && InMo(x, i, j) :: (i, j)
  }

  /** From-read: `b` overwrites what `r` read. */
  predicate InFr(x: Exec, r: nat, b: nat)
    requires Candidate(x)
  {
    Reads(x, r) && Writes(x, b) && SameLoc(x, r, b) && b != r && RfPos(x, r) < Pos(x, b)
  }

  function FrEdges(x: Exec): (g: set<Edge>)
    requires Candidate(x)
    ensures forall i: nat, j: nat :: (i, j) in g <==> InFr(x, i, j)
  {
    set i: nat, j: nat | i < |x.ev| && j < |x.ev| && InFr(x, i, j) :: (i, j)
  }

  /** Synchronises-with: an acquire read takes its value from the release sequence of `c`, the
      contiguous updates after it in modification order. */
  predicate InSw(x: Exec, c: nat, r: nat)
    requires Candidate(x)
  {
    && Reads(x, r) && Writes(x, c) && SameLoc(x, c, r)
    && x.ev[r].ord.Acquires() && x.ev[c].ord.Releases()
    && Pos(x, c) <= RfPos(x, r)
    && forall k :: Pos(x, c) < k <= RfPos(x, r) ==> UpdateAt(x, x.ev[r].loc, k)
  }

  predicate UpdateAt(x: Exec, l: Loc, k: nat) {
    && l in x.mo && k < |x.mo[l]| && x.mo[l][k].Ev?
    && x.mo[l][k].i < |x.ev| && x.ev[x.mo[l][k].i].kind == U
  }

  function Sw(x: Exec): (g: set<Edge>)
    requires Candidate(x)
    ensures forall i: nat, j: nat :: (i, j) in g <==> InSw(x, i, j)
  {
    set i: nat, j: nat | i < |x.ev| && j < |x.ev| && InSw(x, i, j) :: (i, j)
  }

  ghost predicate Hb(x: Exec, a: nat, b: nat)
    requires Candidate(x)
  {
    Reach(Sb(x) + Sw(x), a, b)
  }

  function Communication(x: Exec): set<Edge>
    requires Candidate(x)
  {
    RfEdges(x) + MoEdges(x) + FrEdges(x)
  }

  /** Extended coherence order. */
  ghost predicate Eco(x: Exec, a: nat, b: nat)
    requires Candidate(x)
  {
    Reach(Communication(x), a, b)
  }

  // Axioms.

  ghost predicate Atomic(x: Exec)
    requires Candidate(x)
  {
    forall r :: 0 <= r < |x.ev| && x.ev[r].kind == U ==> RfPos(x, r) == Pos(x, r) - 1
  }

  ghost predicate NoThinAir(x: Exec) {
    Acyclic(Sb(x) + RfEdges(x))
  }

  /** `hb;eco?` is irreflexive. */
  ghost predicate Coherent(x: Exec)
    requires Candidate(x)
  {
    forall a: nat, b: nat :: Hb(x, a, b) ==> a != b && !Eco(x, b, a)
  }

  ghost predicate Consistent(x: Exec)
    requires Candidate(x)
  {
    Atomic(x) && Coherent(x) && NoThinAir(x)
  }

  function ScGraph(x: Exec): set<Edge>
    requires Candidate(x)
  {
    Sb(x) + RfEdges(x) + MoEdges(x) + FrEdges(x)
  }

  ghost predicate SequentiallyConsistent(x: Exec)
    requires Candidate(x)
  {
    Acyclic(ScGraph(x))
  }

  // The per-location shapes the checker tests instead of `hb;eco?`.

  predicate CoWW(x: Exec, hb: set<Edge>, a: nat, b: nat)
    requires Candidate(x)
  {
    Writes(x, a) && Writes(x, b) && SameLoc(x, a, b) && a != b && (a, b) in hb ==> !(Pos(x, b) < Pos(x, a))
  }

  predicate CoWR(x: Exec, hb: set<Edge>, w: nat, r: nat)
    requires Candidate(x)
  {
    Writes(x, w) && Reads(x, r) && SameLoc(x, w, r) && w != r && (w, r) in hb && x.rf[r] != Ev(w) ==>
      !(x.rf[r] == Init || RfPos(x, r) < Pos(x, w))
  }

  predicate CoRW(x: Exec, hb: set<Edge>, r: nat, w: nat)
    requires Candidate(x)
  {
    Writes(x, w) && Reads(x, r) && SameLoc(x, w, r) && w != r && (r, w) in hb && x.rf[r] != Init ==>
      !(x.rf[r] == Ev(w) || Pos(x, w) < RfPos(x, r))
  }

  predicate CoRR(x: Exec, hb: set<Edge>, r1: nat, r2: nat)
    requires Candidate(x)
  {
    Reads(x, r1) && Reads(x, r2) && SameLoc(x, r1, r2) && r1 != r2 && (r1, r2) in hb && x.rf[r1] != x.rf[r2] ==>
      !(x.rf[r2] == Init || (x.rf[r1] != Init && RfPos(x, r2) < RfPos(x, r1)))
  }

  predicate ShapesAt(x: Exec, hb: set<Edge>, a: nat, b: nat)
    requires Candidate(x)
  {
    CoWW(x, hb, a, b) && CoWR(x, hb, a, b) && CoRW(x, hb, a, b) && CoRR(x, hb, a, b)
  }

  ghost predicate Shapes(x: Exec, hb: set<Edge>)
    requires Candidate(x)
  {
    forall a: nat, b: nat :: a < |x.ev| && b < |x.ev| ==> ShapesAt(x, hb, a, b)
  }
}
