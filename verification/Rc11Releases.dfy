/** Synchronises-with in its usual form: from a release along a chain of updates, each reading from the
    one before, to an acquire. */
module Rc11Releases {
  import opened Relations
  import opened Rc11
  import opened Rc11Coherence

  /** Each event after the first reads from the one before it, and those between the ends are updates. */
  ghost predicate UpdateChain(x: Exec, p: seq<nat>) {
    && |p| >= 2 && (forall i :: 0 <= i < |p| ==> p[i] < |x.ev|)
    && (forall i :: 0 < i < |p| ==> ReadsFrom(x, p[i - 1], p[i]))
    && forall i :: 0 < i < |p| - 1 ==> x.ev[p[i]].kind == U
  }

  ghost predicate ReadsFrom(x: Exec, w: nat, r: nat) {
    r in x.rf && x.rf[r] == Ev(w)
  }

  /** A release `c`, an acquire `r`, and a chain from one to the other. */
  ghost predicate Synchronises(x: Exec, c: nat, r: nat) {
    && c < |x.ev| && x.ev[c].kind != R && (x.ev[c].ord == Rel || x.ev[c].ord == AcqRel)
    && r < |x.ev| && x.ev[r].kind != W && (x.ev[r].ord == Acq || x.ev[r].ord == AcqRel)
    && exists p: seq<nat> :: UpdateChain(x, p) && p[0] == c && p[|p| - 1] == r
  }

  lemma ChainMore(x: Exec, p: seq<nat>, u: nat)
    requires UpdateChain(x, p) && x.ev[p[|p| - 1]].kind == U && u < |x.ev| && ReadsFrom(x, p[|p| - 1], u)
    ensures UpdateChain(x, p + [u])
  {
    var q := p + [u];
    forall i | 0 < i < |q| ensures ReadsFrom(x, q[i - 1], q[i]) {
      assert i < |p| ==> ReadsFrom(x, p[i - 1], p[i]);
    }
  }

  // From the position form to a chain.

  lemma UpdateReads(x: Exec, l: Loc, k: nat)
    requires Candidate(x) && Atomic(x) && l in x.mo && 0 < k < |x.mo[l]| && UpdateAt(x, l, k) && OrderOk(x, l, x.mo[l])
    ensures var u := x.mo[l][k].i; u in x.rf && x.rf[u] == x.mo[l][k - 1]
  {
    var u := x.mo[l][k].i;
    assert Writes(x, u) && x.ev[u].loc == l;
    PosFacts(x, u);
    IndexUnique(x.mo[l], k);
    RfPosFacts(x, u);
  }

  lemma FirstLink(x: Exec, l: Loc, c: nat, k: nat)
    requires Candidate(x) && Atomic(x) && l in x.mo && OrderOk(x, l, x.mo[l])
    requires Writes(x, c) && x.ev[c].loc == l && Pos(x, c) + 1 == k < |x.mo[l]| && UpdateAt(x, l, k)
    ensures UpdateChain(x, [c, x.mo[l][k].i])
  {
    PosFacts(x, c);
    UpdateReads(x, l, k);
  }

  /** The chain from the write at one position to the update at a later one. */
  lemma {:induction false} ChainTo(x: Exec, l: Loc, c: nat, k: nat) returns (p: seq<nat>)
    requires Candidate(x) && Atomic(x) && l in x.mo && OrderOk(x, l, x.mo[l])
    requires Writes(x, c) && x.ev[c].loc == l && Pos(x, c) < k < |x.mo[l]|
    requires forall j :: Pos(x, c) < j <= k ==> UpdateAt(x, l, j)
    ensures UpdateChain(x, p) && p[0] == c && p[|p| - 1] == x.mo[l][k].i
    decreases k
  {
    assert UpdateAt(x, l, k);
    if k - 1 == Pos(x, c) {
      FirstLink(x, l, c, k);
      p := [c, x.mo[l][k].i];
    } else {
      assert UpdateAt(x, l, k - 1);
      var front := ChainTo(x, l, c, k - 1);
      UpdateReads(x, l, k);
      ChainMore(x, front, x.mo[l][k].i);
      p := front + [x.mo[l][k].i];
    }
  }

  lemma SwHasChain(x: Exec, c: nat, r: nat)
    requires Candidate(x) && Atomic(x) && InSw(x, c, r)
    ensures Synchronises(x, c, r)
  {
    var l, k := x.ev[r].loc, RfPos(x, r);
    RfPosFacts(x, r);
    PosFacts(x, c);
    assert Ordered(x, r);
    if k == Pos(x, c) {
      assert UpdateChain(x, [c, r]);
    } else {
      var front := ChainTo(x, l, c, k);
      assert UpdateAt(x, l, k);
      ChainMore(x, front, r);
    }
  }

  // And back.

  /** Along a chain the writes follow one another in modification order. */
  lemma {:induction false} ChainPositions(x: Exec, p: seq<nat>, i: nat)
    requires Candidate(x) && Atomic(x) && UpdateChain(x, p) && i < |p| - 1
    ensures Writes(x, p[i]) && SameLoc(x, p[0], p[i]) && Writes(x, p[0]) && Pos(x, p[i]) == Pos(x, p[0]) + i
  {
    assert ReadsFrom(x, p[i], p[i + 1]);
    RfPosFacts(x, p[i + 1]);
    if i == 0 {
    } else {
      ChainPositions(x, p, i - 1);
      assert ReadsFrom(x, p[i - 1], p[i]);
      RfPosFacts(x, p[i]);
    }
  }

  lemma ChainIsSw(x: Exec, p: seq<nat>)
    requires Candidate(x) && Atomic(x) && UpdateChain(x, p)
    requires x.ev[p[0]].ord.Releases() && x.ev[p[|p| - 1]].ord.Acquires()
    ensures InSw(x, p[0], p[|p| - 1])
  {
    var c, r, last := p[0], p[|p| - 1], |p| - 2;
    assert ReadsFrom(x, p[last], r);
    RfPosFacts(x, r);
    ChainPositions(x, p, last);
    forall k | Pos(x, c) < k <= RfPos(x, r) ensures UpdateAt(x, x.ev[r].loc, k) {
      var i := k - Pos(x, c);
      ChainPositions(x, p, i);
      PosFacts(x, p[i]);
    }
  }

  /** The backward walk over positions in modification order is the release sequence of the standard: for
      every candidate with atomic updates, `c` synchronises with `r` exactly when `c` is a release, `r` an
      acquire, and a chain of updates leads from one to the other. */
  lemma SwIsUpdateChain(x: Exec, c: nat, r: nat)
    requires Candidate(x) && Atomic(x)
    ensures InSw(x, c, r) <==> Synchronises(x, c, r)
  {
    if InSw(x, c, r) {
      SwHasChain(x, c, r);
    }
    if Synchronises(x, c, r) {
      var p: seq<nat> :| UpdateChain(x, p) && p[0] == c && p[|p| - 1] == r;
      ChainIsSw(x, p);
    }
  }
}
