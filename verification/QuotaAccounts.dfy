/** What the fields of the quota model stand for: where quota comes from and goes, what a producer's
    scan has seen, and what the consumer and an idle producer are free to do. */
module QuotaAccounts {
  import opened QuotaProtocol
  import opened QuotaSafety

  // Conservation.

  function Balances(s: State): (b: seq<nat>)
    ensures |b| == |s.producers| && forall i :: 0 <= i < |b| ==> b[i] == s.producers[i].balance
  {
    seq(|s.producers|, i requires 0 <= i < |s.producers| => s.producers[i].balance)
  }

  /** Everything ever handed out: what has been reserved and what still may be. */
  function Total(s: State): nat {
    s.wt + Sum(Balances(s))
  }

  /** Quota handed out by a step: a grant fills a balance up, and so does, with automatic refill, a
      reservation. */
  function HandedOut(p: Params, automatic: bool, s: State, a: Action): int
    requires Sized(p) && Fits(p, s) && Enabled(p, s, a)
  {
    match a
    case Grant(i) => p.quotas[i] - s.producers[i].balance
    case Reserve(i, size) => if automatic then p.quotas[i] - (s.producers[i].balance - size) else 0
    case _ => 0
  }

  function Spent(a: Action): nat {
    if a.Reserve? then a.size else 0
  }

  /** Reservations only move quota from a balance to the tail, and probes, scans and the consumer move
      none: every step changes the total by exactly what it hands out, the tail by exactly what it
      reserves, and no other producer at all. */
  lemma Conserved(p: Params, automatic: bool, s: State, a: Action)
    requires Sized(p) && Fits(p, s) && Enabled(p, s, a)
    ensures var t := Apply(p, automatic, s, a);
      && Total(t) == Total(s) + HandedOut(p, automatic, s, a) && t.wt == s.wt + Spent(a)
      && forall j :: 0 <= j < |s.producers| && (a.OfConsumer() || j != a.i) ==> t.producers[j] == s.producers[j]
  {
    var t := Apply(p, automatic, s, a);
    if a.OfConsumer() {
      assert Balances(t) == Balances(s);
    } else {
      var b := t.producers[a.i].balance;
      assert Balances(t) == Balances(s)[a.i := b];
      SumUpdate(Balances(s), a.i, b);
    }
  }

  function Reserved(acts: seq<Action>): nat {
    if acts == [] then 0 else Spent(acts[0]) + Reserved(acts[1..])
  }

  function Times(acts: seq<Action>, a: Action): nat {
    if acts == [] then 0 else (if acts[0] == a then 1 else 0) + Times(acts[1..], a)
  }

  ghost function HandedOutAlong(p: Params, automatic: bool, s: State, acts: seq<Action>): int
    requires Sized(p) && Fits(p, s)
    decreases |acts|
  {
    if acts == [] || !Enabled(p, s, acts[0]) then 0
    else HandedOut(p, automatic, s, acts[0]) + HandedOutAlong(p, automatic, Apply(p, automatic, s, acts[0]), acts[1..])
  }

  /** Along every run the tail is what has been reserved, tail and balances together are what has been
      handed out, and the held range has moved once for each move of the consumer. */
  lemma {:induction false} AccountsBalance(p: Params, automatic: bool, s: State, acts: seq<Action>, t: State)
    requires Sized(p) && Fits(p, s) && Run(p, automatic, s, acts, t)
    ensures Total(t) == Total(s) + HandedOutAlong(p, automatic, s, acts)
    ensures t.wt == s.wt + Reserved(acts)
    ensures t.newest == s.newest + Times(acts, PinAhead) && t.oldest == s.oldest + Times(acts, DropOldest)
    decreases |acts|
  {
    if acts == [] {
    } else {
      Conserved(p, automatic, s, acts[0]);
      AccountsBalance(p, automatic, Apply(p, automatic, s, acts[0]), acts[1..], t);
    }
  }

  lemma {:induction false} ZerosSum(b: seq<nat>)
    requires forall i :: 0 <= i < |b| ==> b[i] == 0
    ensures Sum(b) == 0
  {
    if b == [] {
    } else {
      ZerosSum(b[1..]);
    }
  }

  /** In the strict protocol grants are the only source: in every reachable state the tail and the
      balances together are what the grants have added. */
  lemma StrictAccounts(p: Params, acts: seq<Action>, t: State)
    requires Sized(p) && Run(p, false, Start(p), acts, t)
    ensures t.wt + Sum(Balances(t)) == HandedOutAlong(p, false, Start(p), acts)
    ensures t.wt == Reserved(acts)
    ensures t.newest == Times(acts, PinAhead) && t.oldest == Times(acts, DropOldest)
  {
    AccountsBalance(p, false, Start(p), acts, t);
    ZerosSum(Balances(Start(p)));
  }

  /** What producer `i` reserves. */
  function ReservedBy(acts: seq<Action>, i: nat): nat {
    if acts == [] then 0
    else (if acts[0].Reserve? && acts[0].i == i then acts[0].size else 0) + ReservedBy(acts[1..], i)
  }

  /** Between two grants a strict producer's balance falls by what it reserves and by nothing else. */
  lemma {:induction false} OwnAccount(p: Params, s: State, acts: seq<Action>, t: State, i: nat)
    requires Sized(p) && Fits(p, s) && Run(p, false, s, acts, t) && i < |p.quotas| && Grant(i) !in acts
    ensures Fits(p, t) && t.producers[i].balance + ReservedBy(acts, i) == s.producers[i].balance
    decreases |acts|
  {
    if acts == [] {
    } else {
      OwnAccount(p, Apply(p, false, s, acts[0]), acts[1..], t, i);
    }
  }

  // What everyone is free to do.

  /** The consumer can hold any range between its own and the tail's epoch. */
  lemma {:induction false} ConsumerIsFree(p: Params, automatic: bool, s: State, oldest: nat, newest: nat)
      returns (acts: seq<Action>)
    requires Sized(p) && Fits(p, s)
    requires s.oldest <= oldest <= newest <= s.wt / p.cap && s.newest <= newest && s.oldest <= s.newest
    ensures Run(p, automatic, s, acts, State(s.wt, oldest, newest, s.producers))
    ensures |acts| == newest - s.newest + oldest - s.oldest && forall a :: a in acts ==> a.OfConsumer()
    decreases newest - s.newest + oldest - s.oldest
  {
    if s.newest == newest && s.oldest == oldest {
      return [];
    }
    var a := if s.newest < newest then PinAhead else DropOldest;
    var rest := ConsumerIsFree(p, automatic, Apply(p, automatic, s, a), oldest, newest);
    acts := [a] + rest;
    assert acts[1..] == rest;
  }

  /** An idle producer of a reachable strict state may reserve any part of its balance, or probe. */
  lemma IdleIsFree(p: Params, s: State, i: nat, size: nat)
    requires Admitted(p) && Sized(p) && Reachable(p, false, s) && i < |p.quotas|
    ensures Fits(p, s)
    ensures s.producers[i].step == 0 && 1 <= size <= s.producers[i].balance <==> CanStep(p, s, Reserve(i, size))
    ensures s.producers[i].step == 0 <==> CanStep(p, s, Probe(i))
  {
    StrictRunsSafe(p, s);
    assert !Violates(p, s, Reserve(i, size));
  }

  /** A scanning producer has exactly one thing to do. */
  lemma ScanIsDetermined(p: Params, s: State, i: nat) returns (a: Action)
    requires Sized(p) && Fits(p, s) && i < |p.quotas| && s.producers[i].step > 0
    ensures Enabled(p, s, a) && !a.OfConsumer() && a.i == i
    ensures forall b :: Enabled(p, s, b) && !b.OfConsumer() && b.i == i ==> b == a
  {
    var here := (s.producers[i].anchor + s.producers[i].step) % p.k in Pinned(p, s);
    a := if s.producers[i].step == Need(p) + 1 then Grant(i) else if here then ScanBlocked(i) else ScanZero(i);
  }

  // What a scan has seen.

  lemma {:induction false} RunLast(p: Params, automatic: bool, s: State, acts: seq<Action>, t: State)
      returns (u: State)
    requires Sized(p) && Fits(p, s) && acts != [] && Run(p, automatic, s, acts, t)
    ensures Run(p, automatic, s, acts[..|acts| - 1], u) && Fits(p, u) && CanStep(p, u, acts[|acts| - 1])
    ensures t == Apply(p, automatic, u, acts[|acts| - 1])
    decreases |acts|
  {
    if |acts| == 1 {
      u := s;
    } else {
      u := RunLast(p, automatic, Apply(p, automatic, s, acts[0]), acts[1..], t);
      assert acts[..|acts| - 1][1..] == acts[1..][..|acts[1..]| - 1];
    }
  }

  /** After the first `n` actions the tail was in `epoch`. */
  ghost predicate TailIn(p: Params, automatic: bool, acts: seq<Action>, n: nat, epoch: nat)
    requires Sized(p) && n <= |acts|
  {
    exists m: State :: Run(p, automatic, Start(p), acts[..n], m) && m.wt / p.cap == epoch
  }

  /** After the first `n` actions no held epoch had the slot of `epoch`. */
  ghost predicate SlotFree(p: Params, automatic: bool, acts: seq<Action>, n: nat, epoch: nat)
    requires Sized(p) && n <= |acts|
  {
    exists m: State ::
      Run(p, automatic, Start(p), acts[..n], m) && forall e :: m.oldest <= e <= m.newest ==> e % p.k != epoch % p.k
  }

  /** A record of producer `i`'s scan: its probe is action `q`, with the tail in `anchor`, and action
      `at[j]` found the slot of epoch `anchor + j + 1` free; it has taken no other action since. */
  ghost predicate Record(p: Params, automatic: bool, acts: seq<Action>, i: nat, anchor: nat, q: nat, at: seq<nat>)
    requires Sized(p)
  {
    && q < |acts| && acts[q] == Probe(i) && TailIn(p, automatic, acts, q, anchor)
    && (forall j :: 0 <= j < |at| ==> q < at[j] < |acts|)
    && (forall j :: 0 <= j < |at| ==> acts[at[j]] == ScanZero(i) && SlotFree(p, automatic, acts, at[j], anchor + j + 1))
    && (forall j, k :: 0 <= j < k < |at| ==> at[j] < at[k])
    && forall n :: q < n < |acts| && !acts[n].OfConsumer() && acts[n].i == i ==> n in at
  }

  lemma RecordLonger(p: Params, automatic: bool, acts: seq<Action>, i: nat, anchor: nat, q: nat, at: seq<nat>,
                     a: Action)
    requires Sized(p) && Record(p, automatic, acts, i, anchor, q, at) && (a.OfConsumer() || a.i != i)
    ensures Record(p, automatic, acts + [a], i, anchor, q, at)
  {
    var more := acts + [a];
    assert more[..q] == acts[..q];
    forall j | 0 <= j < |at|
      ensures more[at[j]] == ScanZero(i) && SlotFree(p, automatic, more, at[j], anchor + j + 1)
    {
      assert more[..at[j]] == acts[..at[j]];
    }
  }

  lemma FoundFree(p: Params, automatic: bool, acts: seq<Action>, u: State, i: nat)
    requires Sized(p) && Fits(p, u) && Run(p, automatic, Start(p), acts, u) && Enabled(p, u, ScanZero(i))
    ensures var q := u.producers[i];
      SlotFree(p, automatic, acts + [ScanZero(i)], |acts|, q.anchor + q.step)
  {
    assert (acts + [ScanZero(i)])[..|acts|] == acts;
    forall e | u.oldest <= e <= u.newest
      ensures e % p.k != (u.producers[i].anchor + u.producers[i].step) % p.k
    {
      assert e % p.k in Pinned(p, u);
    }
  }

  lemma RecordZero(p: Params, automatic: bool, acts: seq<Action>, i: nat, anchor: nat, q: nat, at: seq<nat>)
    requires Sized(p) && Record(p, automatic, acts, i, anchor, q, at)
    requires SlotFree(p, automatic, acts + [ScanZero(i)], |acts|, anchor + |at| + 1)
    ensures Record(p, automatic, acts + [ScanZero(i)], i, anchor, q, at + [|acts|])
  {
    var more, all := acts + [ScanZero(i)], at + [|acts|];
    assert more[..q] == acts[..q];
    forall j | 0 <= j < |all|
      ensures more[all[j]] == ScanZero(i) && SlotFree(p, automatic, more, all[j], anchor + j + 1)
    {
      if j < |at| {
        assert more[..at[j]] == acts[..at[j]];
      }
    }
    forall n | q < n < |more| && !more[n].OfConsumer() && more[n].i == i ensures n in all {
      assert n < |acts| ==> n in at;
      assert all[|at|] == |acts|;
    }
  }

  lemma RecordProbe(p: Params, automatic: bool, acts: seq<Action>, u: State, i: nat)
    requires Sized(p) && Fits(p, u) && Run(p, automatic, Start(p), acts, u)
    ensures Record(p, automatic, acts + [Probe(i)], i, u.wt / p.cap, |acts|, [])
  {
    assert (acts + [Probe(i)])[..|acts|] == acts;
  }

  lemma OwnScanStep(p: Params, automatic: bool, u: State, a: Action)
    requires Sized(p) && Fits(p, u) && Enabled(p, u, a) && !a.OfConsumer()
    requires Apply(p, automatic, u, a).producers[a.i].step > 0
    ensures var x, y := u.producers[a.i], Apply(p, automatic, u, a).producers[a.i];
      if a.Probe? then y.step == 1 && y.anchor == u.wt / p.cap
      else a.ScanZero? && x.step > 0 && y.step == x.step + 1 && y.anchor == x.anchor
  {
  }

  /** What a scan under way stands for: the producer probed when the tail was in its anchor's epoch, and
      has since found one forward slot after the other free and done nothing else. */
  lemma {:induction false} ScanHistory(p: Params, automatic: bool, acts: seq<Action>, t: State, i: nat)
      returns (q: nat, at: seq<nat>)
    requires Sized(p) && Run(p, automatic, Start(p), acts, t) && Fits(p, t) && i < |p.quotas|
    requires t.producers[i].step > 0
    ensures |at| == t.producers[i].step - 1 && Record(p, automatic, acts, i, t.producers[i].anchor, q, at)
    decreases |acts|
  {
    var u := RunLast(p, automatic, Start(p), acts, t);
    var a, before := acts[|acts| - 1], acts[..|acts| - 1];
    assert acts == before + [a];
    if a.OfConsumer() || a.i != i {
      Conserved(p, automatic, u, a);
      q, at := ScanHistory(p, automatic, before, u, i);
      RecordLonger(p, automatic, before, i, u.producers[i].anchor, q, at, a);
    } else {
      OwnScanStep(p, automatic, u, a);
      if a.Probe? {
        q, at := |before|, [];
        RecordProbe(p, automatic, before, u, i);
      } else {
        q, at := ScanHistory(p, automatic, before, u, i);
        FoundFree(p, automatic, before, u, i);
        RecordZero(p, automatic, before, i, u.producers[i].anchor, q, at);
        at := at + [|before|];
      }
    }
  }

  /** A producer takes a grant only after a probe and after finding each of the `Need(p)` slots behind
      it free, one after the other. */
  lemma GrantIsScanned(p: Params, automatic: bool, acts: seq<Action>, t: State, i: nat) returns (q: nat, at: seq<nat>)
    requires Sized(p) && Run(p, automatic, Start(p), acts, t) && Fits(p, t) && CanStep(p, t, Grant(i))
    ensures |at| == Need(p) && Record(p, automatic, acts, i, t.producers[i].anchor, q, at)
  {
    q, at := ScanHistory(p, automatic, acts, t, i);
  }

  /** An idle producer keeps no anchor, and no scan goes past the number of slots it has to find. */
  lemma {:induction false} IdleForgets(p: Params, automatic: bool, acts: seq<Action>, t: State, i: nat)
    requires Sized(p) && Run(p, automatic, Start(p), acts, t) && i < |p.quotas|
    ensures Fits(p, t) && t.producers[i].step <= Need(p) + 1
    ensures t.producers[i].step == 0 ==> t.producers[i].anchor == 0
    decreases |acts|
  {
    if acts == [] {
    } else {
      var u := RunLast(p, automatic, Start(p), acts, t);
      IdleForgets(p, automatic, acts[..|acts| - 1], u, i);
    }
  }
}
