/** Progress of the quota protocol: no producer starves for good, the admission bound is
    exactly what makes a grant possible, and refilling after every reservation is unsafe for
    every admitted configuration. */
module QuotaLiveness {
  import opened QuotaProtocol
  import opened QuotaSafety

  /** The consumer has caught up with the tail, so one slot is pinned. */
  ghost predicate CaughtUp(p: Params, s: State)
    requires Sized(p)
  {
    s.oldest == s.newest == s.wt / p.cap
  }

  /** Every action is the consumer's or producer `i`'s. */
  predicate Only(acts: seq<Action>, i: nat) {
    forall a :: a in acts ==> a.OfConsumer() || a.i == i
  }

  /** The consumer alone can always catch up. */
  lemma {:induction false} CatchUp(p: Params, automatic: bool, s: State) returns (acts: seq<Action>, t: State)
    requires Sized(p) && Fits(p, s) && s.oldest <= s.newest <= s.wt / p.cap
    ensures Run(p, automatic, s, acts, t)
    ensures CaughtUp(p, t) && t.wt == s.wt && t.producers == s.producers
    ensures forall a :: a in acts ==> a.OfConsumer()
    decreases s.wt / p.cap - s.newest + s.wt / p.cap - s.oldest
  {
    if CaughtUp(p, s) {
      return [], s;
    }
    var a := if s.newest < s.wt / p.cap then PinAhead else DropOldest;
    var rest, u := CatchUp(p, automatic, Apply(p, automatic, s, a));
    acts, t := [a] + rest, u;
    assert acts[1..] == rest;
  }

  ghost predicate Granted(p: Params, s: State, t: State, i: nat)
    requires Fits(p, s) && i < |p.quotas|
  {
    t == With(s, i, Producer(p.quotas[i], 0, 0))
  }

  /** A scan under way either completes and grants, or is blocked and returns to idle. */
  lemma {:induction false} FinishScan(p: Params, automatic: bool, s: State, i: nat)
      returns (acts: seq<Action>, t: State, granted: bool)
    requires Sized(p) && Fits(p, s) && i < |p.quotas| && s.producers[i].step <= Need(p) + 1
    ensures Run(p, automatic, s, acts, t) && Fits(p, t)
    ensures if granted then Granted(p, s, t, i) && acts != [] && acts[|acts| - 1] == Grant(i)
            else t == With(s, i, t.producers[i]) && t.producers[i].step == 0
    ensures Only(acts, i)
    decreases Need(p) + 1 - s.producers[i].step
  {
    if s.producers[i].step == 0 {
      return [], s, false;
    }
    if s.producers[i].step == Need(p) + 1 {
      StepRun(p, automatic, s, Grant(i));
      return [Grant(i)], Apply(p, automatic, s, Grant(i)), true;
    }
    if NextSlot(p, s, i) in Pinned(p, s) {
      StepRun(p, automatic, s, ScanBlocked(i));
      return [ScanBlocked(i)], Apply(p, automatic, s, ScanBlocked(i)), false;
    }
    var u := Apply(p, automatic, s, ScanZero(i));
    var rest;
    rest, t, granted := FinishScan(p, automatic, u, i);
    acts := [ScanZero(i)] + rest;
    assert acts[1..] == rest;
  }

  /** With the consumer caught up, a scan anchored at the tail meets no pinned slot. */
  lemma {:induction false} ScanThrough(p: Params, automatic: bool, s: State, i: nat)
      returns (acts: seq<Action>, t: State)
    requires Admitted(p) && Sized(p) && Fits(p, s) && i < |p.quotas| && CaughtUp(p, s)
    requires s.producers[i].anchor == s.wt / p.cap && 1 <= s.producers[i].step <= Need(p) + 1
    ensures Run(p, automatic, s, acts, t) && Granted(p, s, t, i)
    ensures acts != [] && acts[|acts| - 1] == Grant(i) && Only(acts, i)
    decreases Need(p) + 1 - s.producers[i].step
  {
    if s.producers[i].step == Need(p) + 1 {
      StepRun(p, automatic, s, Grant(i));
      return [Grant(i)], Apply(p, automatic, s, Grant(i));
    }
    NeedCovers(p);
    SlotsDiffer(s.oldest, s.oldest + s.producers[i].step, p.k);
    var rest;
    rest, t := ScanThrough(p, automatic, Apply(p, automatic, s, ScanZero(i)), i);
    acts := [ScanZero(i)] + rest;
    assert acts[1..] == rest;
  }

  lemma FreshScan(p: Params, automatic: bool, s: State, i: nat) returns (acts: seq<Action>, t: State)
    requires Admitted(p) && Sized(p) && Fits(p, s) && i < |p.quotas| && CaughtUp(p, s)
    requires s.producers[i].step == 0
    ensures Run(p, automatic, s, acts, t) && Granted(p, s, t, i)
    ensures acts != [] && acts[|acts| - 1] == Grant(i) && Only(acts, i)
  {
    var u := Apply(p, automatic, s, Probe(i));
    var rest;
    rest, t := ScanThrough(p, automatic, u, i);
    acts := [Probe(i)] + rest;
    assert acts[1..] == rest;
  }

  /** From any strict state in which producer `i`'s scan is well formed it can be granted its quota. */
  lemma GrantFollows(p: Params, s: State, i: nat) returns (acts: seq<Action>, t: State)
    requires Admitted(p) && Sized(p) && Fits(p, s) && i < |p.quotas| && s.producers[i].step <= Need(p) + 1
    requires s.oldest <= s.newest <= s.wt / p.cap
    ensures Run(p, false, s, acts, t) && acts != [] && acts[|acts| - 1] == Grant(i) && Only(acts, i)
    ensures t.wt == s.wt && t.producers == s.producers[i := Producer(p.quotas[i], 0, 0)]
  {
    var first, u := CatchUp(p, false, s);
    var second, v, granted := FinishScan(p, false, u, i);
    RunAppend(p, false, s, first, u, second, v);
    acts, t := first + second, v;
    if !granted {
      var third, w := FreshScan(p, false, v, i);
      RunAppend(p, false, s, acts, v, third, w);
      acts, t := acts + third, w;
    }
  }

  /** From every reachable strict state, every producer can be granted its whole quota by its own and
      the consumer's steps alone, without the tail moving. */
  lemma NoStarvation(p: Params, s: State, i: nat) returns (acts: seq<Action>, t: State)
    requires Admitted(p) && Sized(p) && Reachable(p, false, s) && i < |p.quotas|
    ensures Fits(p, s) && Run(p, false, s, acts, t)
    ensures acts != [] && acts[|acts| - 1] == Grant(i) && Only(acts, i)
    ensures t.wt == s.wt
    ensures t.producers == s.producers[i := Producer(p.quotas[i], 0, 0)]
  {
    StartInv(p);
    var path: seq<Action> :| Run(p, false, Start(p), path, s);
    RunSafe(p, Start(p), path, s);
    var xs: seq<nat>, m: nat :| Inv(p, s, xs, m);
    assert ProducerOk(p, s, xs, m, i);
    acts, t := GrantFollows(p, s, i);
  }

  // The admission bound.

  ghost predicate GrantReachable(p: Params, automatic: bool)
    requires Sized(p)
  {
    exists s: State, i: nat :: Reachable(p, automatic, s) && Fits(p, s) && Enabled(p, s, Grant(i))
  }

  /** Nothing has been granted and no scan can get past the slot pinned at the start. */
  ghost predicate Frozen(p: Params, s: State)
    requires Sized(p)
  {
    && Fits(p, s)
    && s.wt == s.oldest == s.newest == 0
    && forall i :: 0 <= i < |p.quotas| ==>
        && s.producers[i].balance == 0 && s.producers[i].anchor == 0
        && s.producers[i].step <= p.k
  }

  lemma {:induction false} StaysFrozen(p: Params, automatic: bool, s: State, acts: seq<Action>, t: State)
    requires Sized(p) && Need(p) >= p.k && Frozen(p, s) && Run(p, automatic, s, acts, t)
    ensures Frozen(p, t)
    decreases |acts|
  {
    if acts == [] {
    } else {
      var a := acts[0];
      DivBounds(0, p.cap, 1);
      if a.ScanZero? && s.producers[a.i].step == p.k {
        OldestPinned(p, s);
        assert false;
      }
      StaysFrozen(p, automatic, Apply(p, automatic, s, a), acts[1..], t);
    }
  }

  lemma SomeQuota(q: seq<nat>) returns (i: nat)
    requires Sum(q) > 0
    ensures i < |q| && q[i] > 0
  {
    if q[0] > 0 {
      i := 0;
    } else {
      i := SomeQuota(q[1..]);
      i := i + 1;
    }
  }

  lemma FirstGrant(p: Params, automatic: bool, i: nat) returns (t: State)
    requires Admitted(p) && Sized(p) && i < |p.quotas|
    ensures Reachable(p, automatic, t) && Granted(p, Start(p), t, i)
  {
    DivBounds(0, p.cap, 1);
    var acts;
    acts, t := FreshScan(p, automatic, Start(p), i);
  }

  /** The asserted bound on the quotas is exactly the condition under which any grant can ever
      be taken: one more ulong of quota and every producer scans for ever. */
  lemma AdmissionIsExact(p: Params, automatic: bool)
    requires Sized(p) && ExMax(p) > 0
    ensures GrantReachable(p, automatic) <==> ExMax(p) <= (p.k - 1) * p.cap
  {
    if Admitted(p) {
      DivBounds(0, p.cap, 1);
      var i := SomeQuota(p.quotas);
      var acts, t := FreshScan(p, automatic, Start(p), i);
      var s := BeforeLast(p, automatic, Start(p), acts, t);
      assert Reachable(p, automatic, s);
    } else {
      NeedCovers(p);
      forall s: State, i: nat | Reachable(p, automatic, s) && Fits(p, s)
        ensures !Enabled(p, s, Grant(i))
      {
        var acts: seq<Action> :| Run(p, automatic, Start(p), acts, s);
        StaysFrozen(p, automatic, Start(p), acts, s);
      }
    }
  }

  lemma {:induction false} BeforeLast(p: Params, automatic: bool, s: State, acts: seq<Action>, t: State)
      returns (u: State)
    requires Sized(p) && Fits(p, s) && acts != [] && Run(p, automatic, s, acts, t)
    ensures Run(p, automatic, s, acts[..|acts| - 1], u)
    ensures Fits(p, u) && Enabled(p, u, acts[|acts| - 1])
    decreases |acts|
  {
    if |acts| == 1 {
      u := s;
    } else {
      u := BeforeLast(p, automatic, Apply(p, automatic, s, acts[0]), acts[1..], t);
      assert acts[..|acts| - 1][1..] == acts[1..][..|acts[1..]| - 1];
    }
  }

  // The negative control.

  /** With automatic refill and the consumer parked on epoch 0, one producer walks the tail one
      ulong at a time to the end of the first lap. */
  lemma {:induction false} SpendFirstLap(p: Params, s: State, i: nat) returns (t: State)
    requires Sized(p) && p.k >= 2 && Reachable(p, true, s) && Fits(p, s)
    requires i < |p.quotas| && p.quotas[i] > 0
    requires s.oldest == s.newest == 0 && s.producers[i].step == 0 && s.producers[i].balance == p.quotas[i]
    requires s.wt < p.k * p.cap
    ensures Reachable(p, true, t) && Fits(p, t)
    ensures t.oldest == t.newest == 0 && t.producers[i].step == 0 && t.producers[i].balance > 0
    ensures t.wt == p.k * p.cap - 1
    decreases p.k * p.cap - s.wt
  {
    DivBounds(s.wt, p.cap, p.k);
    if s.wt == p.k * p.cap - 1 {
      t := s;
    } else {
      OracleExact(p, s, i, 1);
      var acts: seq<Action> :| Run(p, true, Start(p), acts, s);
      RunSnoc(p, true, Start(p), acts, s, Reserve(i, 1));
      t := SpendFirstLap(p, Apply(p, true, s, Reserve(i, 1)), i);
    }
  }

  /** The negative control generalises: for every admitted ring and quota vector, refilling
      after each reservation reaches a reservation entering a pinned epoch within one lap. */
  lemma AutomaticRefillUnsafe(p: Params) returns (t: State, i: nat)
    requires Admitted(p) && Sized(p)
    ensures Reachable(p, true, t) && Fits(p, t)
    ensures Violates(p, t, Reserve(i, 1)) && t.wt + 1 == p.k * p.cap
  {
    AdmittedIsSized(p);
    i := SomeQuota(p.quotas);
    var s := FirstGrant(p, true, i);
    assert p.k * p.cap > 0;
    t := SpendFirstLap(p, s, i);
    DivBounds(t.wt, p.cap, p.k);
    OracleExact(p, t, i, 1);
  }
}
