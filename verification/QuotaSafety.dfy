/** No run of the strict protocol lets a reservation enter a pinned epoch, for every ring,
    every quota vector and every interleaving of stale probes, loads, grants and moves. */
module QuotaSafety {
  import opened QuotaProtocol

  /** What producer `j` may still reserve against a probe at tail `x`: its balance, or its whole
      quota if a scan it started at or before `x` is still under way. */
  function Claim(p: Params, s: State, xs: seq<nat>, x: nat, j: nat): nat
    requires Fits(p, s) && |xs| == |p.quotas| && j < |xs|
  {
    if s.producers[j].step != 0 && xs[j] <= x then p.quotas[j] else s.producers[j].balance
  }

  function Claims(p: Params, s: State, xs: seq<nat>, x: nat): (c: seq<nat>)
    requires Fits(p, s) && |xs| == |p.quotas|
    ensures |c| == |xs| && forall j :: 0 <= j < |xs| ==> c[j] == Claim(p, s, xs, x, j)
  {
    seq(|xs|, j requires 0 <= j < |xs| => Claim(p, s, xs, x, j))
  }

  /** Everything that can still be reserved against tail `x` stays within one round of quotas. */
  ghost predicate Covered(p: Params, s: State, xs: seq<nat>, x: nat)
    requires Fits(p, s) && |xs| == |p.quotas|
  {
    s.wt + Sum(Claims(p, s, xs, x)) <= x + ExMax(p)
  }

  ghost predicate ProducerOk(p: Params, s: State, xs: seq<nat>, m: nat, i: nat)
    requires Sized(p) && Fits(p, s) && |xs| == |p.quotas| && i < |xs|
  {
    var q := s.producers[i];
    && q.balance <= p.quotas[i]
    && q.step <= Need(p) + 1
    && (q.step != 0 ==>
          && xs[i] <= s.wt
          && q.anchor == xs[i] / p.cap
          && q.anchor + q.step <= s.oldest + p.k
          && (m <= xs[i] ==> Covered(p, s, xs, xs[i])))
  }

  /** The inductive invariant. `xs` gives the tail each scanning producer probed and `m` the
      largest probed tail ever granted. */
  ghost predicate Inv(p: Params, s: State, xs: seq<nat>, m: nat)
    requires Sized(p)
  {
    && Fits(p, s)
    && |xs| == |p.quotas|
    && s.oldest <= s.newest <= s.wt / p.cap
    && m <= s.wt
    && m + ExMax(p) < (s.oldest + p.k) * p.cap
    && Covered(p, s, xs, m)
    && forall i :: 0 <= i < |xs| ==> ProducerOk(p, s, xs, m, i)
  }

  ghost predicate Safe(p: Params, s: State)
    requires Sized(p)
  {
    exists xs: seq<nat>, m: nat :: Inv(p, s, xs, m)
  }

  // Sums.

  lemma {:induction false} SumUpdate(s: seq<nat>, i: nat, v: nat)
    requires i < |s|
    ensures Sum(s[i := v]) + s[i] == Sum(s) + v
  {
    if i > 0 {
      SumUpdate(s[1..], i - 1, v);
      assert s[i := v][1..] == s[1..][i - 1 := v];
    } else {
      assert s[i := v][1..] == s[1..];
    }
  }

  lemma {:induction false} SumMonotone(s: seq<nat>, t: seq<nat>)
    requires |s| == |t| && forall i :: 0 <= i < |s| ==> s[i] <= t[i]
    ensures Sum(s) <= Sum(t)
  {
    if s == [] {
    } else {
      SumMonotone(s[1..], t[1..]);
    }
  }

  lemma {:induction false} SumAtLeast(s: seq<nat>, i: nat)
    requires i < |s|
    ensures s[i] <= Sum(s)
  {
    if i == 0 {
    } else {
      SumAtLeast(s[1..], i - 1);
    }
  }

  /** Claims never exceed the quotas, so any tail that is not yet reached is covered. */
  lemma FreshTailCovered(p: Params, s: State, xs: seq<nat>)
    requires Fits(p, s) && |xs| == |p.quotas|
    requires forall i :: 0 <= i < |xs| ==> s.producers[i].balance <= p.quotas[i]
    ensures Covered(p, s, xs, s.wt)
  {
    SumMonotone(Claims(p, s, xs, s.wt), p.quotas);
  }

  lemma CoveredMonotone(p: Params, s: State, xs: seq<nat>, t: State, ys: seq<nat>, x: nat)
    requires Fits(p, s) && Fits(p, t) && |xs| == |ys| == |p.quotas|
    requires Covered(p, s, xs, x) && t.wt == s.wt
    requires forall j :: 0 <= j < |xs| ==> Claim(p, t, ys, x, j) <= Claim(p, s, xs, x, j)
    ensures Covered(p, t, ys, x)
  {
    SumMonotone(Claims(p, t, ys, x), Claims(p, s, xs, x));
  }

  lemma StartInv(p: Params)
    requires Admitted(p) && Sized(p)
    ensures Inv(p, Start(p), seq(|p.quotas|, _ => 0), 0)
  {
    var s, xs := Start(p), seq(|p.quotas|, _ => 0);
    FreshTailCovered(p, s, xs);
    assert p.k * p.cap == (p.k - 1) * p.cap + p.cap;
    DivBounds(0, p.cap, 1);
  }

  /** The tail never reaches the oldest pinned epoch's next lap, even after any one spend. */
  lemma TailBound(p: Params, s: State, xs: seq<nat>, m: nat, i: nat)
    requires Sized(p) && Inv(p, s, xs, m) && i < |xs|
    requires s.producers[i].step == 0
    ensures s.wt + s.producers[i].balance < (s.oldest + p.k) * p.cap
  {
    SumAtLeast(Claims(p, s, xs, m), i);
  }

  lemma InvNoViolation(p: Params, s: State, xs: seq<nat>, m: nat, a: Action)
    requires Sized(p) && Inv(p, s, xs, m)
    ensures !Violates(p, s, a)
  {
    if a.Reserve? && Enabled(p, s, a) {
      TailBound(p, s, xs, m, a.i);
      TailBelowRing(p, s, xs, m);
      OracleExact(p, s, a.i, a.size);
    }
  }

  lemma TailBelowRing(p: Params, s: State, xs: seq<nat>, m: nat)
    requires Sized(p) && Inv(p, s, xs, m)
    ensures s.wt < (s.oldest + p.k) * p.cap && s.wt / p.cap < s.oldest + p.k
  {
    DivBounds(s.wt, p.cap, s.oldest + p.k);
  }

  lemma Balances(p: Params, s: State, xs: seq<nat>, m: nat)
    requires Sized(p) && Inv(p, s, xs, m)
    ensures forall i :: 0 <= i < |xs| ==> s.producers[i].balance <= p.quotas[i]
  {
    forall i | 0 <= i < |xs| ensures s.producers[i].balance <= p.quotas[i] {
      assert ProducerOk(p, s, xs, m, i);
    }
  }

  // Each kind of step keeps the invariant.

  lemma ConsumerStepInv(p: Params, s: State, xs: seq<nat>, m: nat, a: Action)
    requires Sized(p) && Inv(p, s, xs, m)
    requires a.OfConsumer() && Enabled(p, s, a)
    ensures Inv(p, Apply(p, false, s, a), xs, m)
  {
    var t := Apply(p, false, s, a);
    assert (t.oldest + p.k) * p.cap >= (s.oldest + p.k) * p.cap by {
      MulMonotone(s.oldest + p.k, t.oldest + p.k, p.cap);
    }
    forall x: nat ensures Claims(p, t, xs, x) == Claims(p, s, xs, x) {}
    forall i | 0 <= i < |xs| ensures ProducerOk(p, t, xs, m, i) {
      assert ProducerOk(p, s, xs, m, i);
    }
  }

  lemma ProbeInv(p: Params, s: State, xs: seq<nat>, m: nat, i: nat)
    requires Sized(p) && Inv(p, s, xs, m) && Enabled(p, s, Probe(i))
    ensures Inv(p, Apply(p, false, s, Probe(i)), xs[i := s.wt], m)
  {
    var t, ys := Apply(p, false, s, Probe(i)), xs[i := s.wt];
    TailBelowRing(p, s, xs, m);
    Balances(p, s, xs, m);
    FreshTailCovered(p, t, ys);
    forall x: nat | x < s.wt && Covered(p, s, xs, x) ensures Covered(p, t, ys, x) {
      CoveredMonotone(p, s, xs, t, ys, x);
    }
    forall j | 0 <= j < |ys| ensures ProducerOk(p, t, ys, m, j) {
      assert ProducerOk(p, s, xs, m, j);
    }
  }

  lemma ReserveInv(p: Params, s: State, xs: seq<nat>, m: nat, i: nat, size: nat)
    requires Sized(p) && Inv(p, s, xs, m) && Enabled(p, s, Reserve(i, size))
    ensures Inv(p, Apply(p, false, s, Reserve(i, size)), xs, m)
  {
    var t := Apply(p, false, s, Reserve(i, size));
    DivBounds(s.wt, p.cap, s.newest);
    DivBounds(t.wt, p.cap, s.newest);
    forall x: nat | Covered(p, s, xs, x) ensures Covered(p, t, xs, x) {
      var c := Claims(p, s, xs, x);
      assert Claims(p, t, xs, x) == c[i := c[i] - size];
      SumUpdate(c, i, c[i] - size);
    }
    forall j | 0 <= j < |xs| ensures ProducerOk(p, t, xs, m, j) {
      assert ProducerOk(p, s, xs, m, j);
    }
  }

  lemma BlockedInv(p: Params, s: State, xs: seq<nat>, m: nat, i: nat)
    requires Sized(p) && Inv(p, s, xs, m) && Enabled(p, s, ScanBlocked(i))
    ensures Inv(p, Apply(p, false, s, ScanBlocked(i)), xs, m)
  {
    var t := Apply(p, false, s, ScanBlocked(i));
    Balances(p, s, xs, m);
    forall x: nat | Covered(p, s, xs, x) ensures Covered(p, t, xs, x) {
      CoveredMonotone(p, s, xs, t, xs, x);
    }
    forall j | 0 <= j < |xs| ensures ProducerOk(p, t, xs, m, j) {
      assert ProducerOk(p, s, xs, m, j);
    }
  }

  lemma OldestPinned(p: Params, s: State)
    requires Sized(p) && s.oldest <= s.newest
    ensures (s.oldest + p.k) % p.k in Pinned(p, s)
  {
    ModAdd(s.oldest, p.k);
    assert s.oldest % p.k in Pinned(p, s);
  }

  /** Finding a slot zero means the consumer has left the epoch one lap earlier. */
  lemma ScanZeroInv(p: Params, s: State, xs: seq<nat>, m: nat, i: nat)
    requires Sized(p) && Inv(p, s, xs, m) && Enabled(p, s, ScanZero(i))
    ensures Inv(p, Apply(p, false, s, ScanZero(i)), xs, m)
  {
    var t, q := Apply(p, false, s, ScanZero(i)), s.producers[i];
    assert ProducerOk(p, s, xs, m, i);
    if q.anchor + q.step == s.oldest + p.k {
      OldestPinned(p, s);
      assert false;
    }
    forall x: nat | Covered(p, s, xs, x) ensures Covered(p, t, xs, x) {
      assert Claims(p, t, xs, x) == Claims(p, s, xs, x);
    }
    forall j | 0 <= j < |xs| ensures ProducerOk(p, t, xs, m, j) {
      assert ProducerOk(p, s, xs, m, j);
    }
  }

  /** A completed scan leaves room for a whole round of quotas past the probed tail. */
  lemma ScannedRoom(p: Params, x: nat, oldest: nat)
    requires Sized(p) && x / p.cap + Need(p) + 1 <= oldest + p.k
    ensures x + ExMax(p) < (oldest + p.k) * p.cap
  {
    var e := x / p.cap;
    NeedCovers(p);
    DivBounds(x, p.cap, e + 1);
    assert (e + 1) * p.cap + Need(p) * p.cap == (e + 1 + Need(p)) * p.cap;
    MulMonotone(e + 1 + Need(p), oldest + p.k, p.cap);
  }

  lemma GrantInv(p: Params, s: State, xs: seq<nat>, m: nat, i: nat)
    requires Sized(p) && Inv(p, s, xs, m) && Enabled(p, s, Grant(i))
    ensures Inv(p, Apply(p, false, s, Grant(i)), xs, if m <= xs[i] then xs[i] else m)
  {
    var t, n := Apply(p, false, s, Grant(i)), if m <= xs[i] then xs[i] else m;
    assert ProducerOk(p, s, xs, m, i);
    ScannedRoom(p, xs[i], s.oldest);
    forall x: nat | n <= x && Covered(p, s, xs, x) ensures Covered(p, t, xs, x) {
      assert Claims(p, t, xs, x) == Claims(p, s, xs, x);
    }
    forall j | 0 <= j < |xs| ensures ProducerOk(p, t, xs, n, j) {
      assert ProducerOk(p, s, xs, m, j);
    }
  }

  lemma StepSafe(p: Params, s: State, a: Action)
    requires Sized(p) && Safe(p, s) && Enabled(p, s, a)
    ensures Safe(p, Apply(p, false, s, a))
  {
    var xs: seq<nat>, m: nat :| Inv(p, s, xs, m);
    match a
    case PinAhead => ConsumerStepInv(p, s, xs, m, a);
    case DropOldest => ConsumerStepInv(p, s, xs, m, a);
    case Probe(i) => ProbeInv(p, s, xs, m, i);
    case Reserve(i, size) => ReserveInv(p, s, xs, m, i, size);
    case Grant(i) => GrantInv(p, s, xs, m, i);
    case ScanBlocked(i) => BlockedInv(p, s, xs, m, i);
    case ScanZero(i) => ScanZeroInv(p, s, xs, m, i);
  }

  lemma {:induction false} RunSafe(p: Params, s: State, acts: seq<Action>, t: State)
    requires Sized(p) && Safe(p, s) && Run(p, false, s, acts, t)
    ensures Safe(p, t)
    decreases |acts|
  {
    if acts == [] {
    } else {
      StepSafe(p, s, acts[0]);
      RunSafe(p, Apply(p, false, s, acts[0]), acts[1..], t);
    }
  }

  /** A reservation that idle producer `i` could make now enters `epoch`, and the consumer holds the
      epoch `held` of the same slot. */
  predicate Collides(p: Params, s: State, i: nat, size: nat, epoch: nat, held: nat)
    requires Sized(p)
  {
    && i < |s.producers| && s.producers[i].step == 0 && 1 <= size <= s.producers[i].balance
    && s.wt / p.cap < epoch <= (s.wt + size) / p.cap
    && s.oldest <= held <= s.newest && epoch % p.k == held % p.k
  }

  lemma CollisionViolates(p: Params, s: State, i: nat, size: nat, epoch: nat, held: nat)
    requires Sized(p) && Fits(p, s) && Collides(p, s, i, size, epoch, held)
    ensures Violates(p, s, Reserve(i, size))
  {
    assert held % p.k in Pinned(p, s);
    assert EntersPinned(p, s, size, epoch);
  }

  /** Main safety theorem: in every reachable state of the strict protocol no enabled
      reservation enters a pinned epoch, the tail is short of the oldest pin's next lap, and
      the held range is shorter than the ring. */
  lemma StrictRunsSafe(p: Params, s: State)
    requires Admitted(p) && Sized(p) && Reachable(p, false, s)
    ensures Fits(p, s)
    ensures forall a :: !Violates(p, s, a)
    ensures forall i: nat, size: nat, epoch: nat, held: nat :: !Collides(p, s, i, size, epoch, held)
    ensures s.wt < (s.oldest + p.k) * p.cap
    ensures s.oldest <= s.newest && s.newest - s.oldest < p.k
    ensures forall i :: 0 <= i < |p.quotas| ==> s.producers[i].balance <= p.quotas[i]
  {
    StartInv(p);
    var acts: seq<Action> :| Run(p, false, Start(p), acts, s);
    RunSafe(p, Start(p), acts, s);
    var xs: seq<nat>, m: nat :| Inv(p, s, xs, m);
    forall a ensures !Violates(p, s, a) {
      InvNoViolation(p, s, xs, m, a);
    }
    forall i: nat, size: nat, epoch: nat, held: nat ensures !Collides(p, s, i, size, epoch, held) {
      if Collides(p, s, i, size, epoch, held) {
        CollisionViolates(p, s, i, size, epoch, held);
      }
    }
    TailBelowRing(p, s, xs, m);
    Balances(p, s, xs, m);
  }

  /** The oracle is exact: a reservation enters a pinned epoch precisely when it reaches the
      first tail position one ring past the oldest held epoch. */
  lemma OracleExact(p: Params, s: State, i: nat, size: nat)
    requires Sized(p) && Fits(p, s) && Enabled(p, s, Reserve(i, size))
    requires s.oldest <= s.newest <= s.wt / p.cap < s.oldest + p.k
    ensures Violates(p, s, Reserve(i, size)) <==> s.wt + size >= (s.oldest + p.k) * p.cap
  {
    DivBounds(s.wt + size, p.cap, s.oldest + p.k);
    if s.wt + size >= (s.oldest + p.k) * p.cap {
      OldestPinned(p, s);
      assert EntersPinned(p, s, size, s.oldest + p.k);
    } else {
      forall epoch: nat ensures !EntersPinned(p, s, size, epoch) {
        if s.wt / p.cap < epoch <= (s.wt + size) / p.cap {
          forall e | s.oldest <= e <= s.newest ensures e % p.k != epoch % p.k {
            SlotsDiffer(e, epoch, p.k);
          }
        }
      }
    }
  }
}
