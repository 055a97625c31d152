/** The producer-quota protocol as a transition system: one consumer holding a contiguous
    range of epochs on a ring of `k` segments, and any number of producers that probe the
    tail, scan forward slots one load at a time, take a grant and reserve. */
module QuotaProtocol {

  datatype Params = Params(k: nat, cap: nat, quotas: seq<nat>)

  /** `step` is 0 when idle, `Need(p) + 1` when a successful scan waits to grant, and otherwise
      the offset from `anchor` of the next slot to load. */
  datatype Producer = Producer(balance: nat, anchor: nat, step: nat)

  datatype State = State(wt: nat, oldest: nat, newest: nat, producers: seq<Producer>)

  datatype Action =
    | PinAhead
    | DropOldest
    | Probe(i: nat)
    | Reserve(i: nat, size: nat)
    | Grant(i: nat)
    | ScanBlocked(i: nat)
    | ScanZero(i: nat)
  {
    predicate OfConsumer() {
      PinAhead? || DropOldest?
    }
  }

  function Sum(s: seq<nat>): nat {
    if s == [] then 0 else s[0] + Sum(s[1..])
  }

  function ExMax(p: Params): nat {
    Sum(p.quotas)
  }

  /** The ring is real: a segment holds something and there is at least one of them. */
  predicate Sized(p: Params) {
    p.k > 0 && p.cap > 0
  }

  /** The precondition the explorer asserts on its parameters. */
  predicate Admitted(p: Params) {
    0 < ExMax(p) <= (p.k - 1) * p.cap
  }

  lemma AdmittedIsSized(p: Params)
    requires Admitted(p)
    ensures Sized(p) && p.k >= 2
  {
  }

  /** Forward slots a scan must find zero: the largest total grant in whole segments. */
  function Need(p: Params): nat
    requires Sized(p)
  {
    (ExMax(p) + p.cap - 1) / p.cap
  }

  function Start(p: Params): State {
    State(0, 0, 0, seq(|p.quotas|, _ => Producer(0, 0, 0)))
  }

  /** Ring slots pinned by the consumer's held epochs. */
  function Pinned(p: Params, s: State): set<nat>
    requires Sized(p)
  {
    set e | s.oldest <= e <= s.newest :: e % p.k
  }

  predicate Fits(p: Params, s: State) {
    |s.producers| == |p.quotas|
  }

  predicate Enabled(p: Params, s: State, a: Action)
    requires Sized(p) && Fits(p, s)
  {
    match a
    case PinAhead => s.newest < s.wt / p.cap
    case DropOldest => s.oldest < s.newest
    case Probe(i) => i < |s.producers| && s.producers[i].step == 0
    case Reserve(i, size) => i < |s.producers| && s.producers[i].step == 0 && 1 <= size <= s.producers[i].balance
    case Grant(i) => i < |s.producers| && s.producers[i].step == Need(p) + 1
    case ScanBlocked(i) => i < |s.producers| && Scanning(p, s, i) && NextSlot(p, s, i) in Pinned(p, s)
    case ScanZero(i) => i < |s.producers| && Scanning(p, s, i) && NextSlot(p, s, i) !in Pinned(p, s)
  }

  predicate Scanning(p: Params, s: State, i: nat)
    requires Sized(p) && i < |s.producers|
  {
    s.producers[i].step != 0 && s.producers[i].step != Need(p) + 1
  }

  function NextSlot(p: Params, s: State, i: nat): nat
    requires Sized(p) && i < |s.producers|
  {
    (s.producers[i].anchor + s.producers[i].step) % p.k
  }

  /** The reservation `[wt, wt + size)` enters an epoch whose slot is still pinned. */
  predicate EntersPinned(p: Params, s: State, size: nat, epoch: nat)
    requires Sized(p)
  {
    s.wt / p.cap < epoch <= (s.wt + size) / p.cap && epoch % p.k in Pinned(p, s)
  }

  ghost predicate Violates(p: Params, s: State, a: Action)
    requires Sized(p) && Fits(p, s)
  {
    a.Reserve? && Enabled(p, s, a) && exists epoch: nat :: EntersPinned(p, s, a.size, epoch)
  }

  function With(s: State, i: nat, q: Producer): State
    requires i < |s.producers|
  {
    s.(producers := s.producers[i := q])
  }

  /** The successor state before producers of equal quota are put in canonical order.
      `automatic` is the negative control: every reservation refills the whole quota. */
  function Apply(p: Params, automatic: bool, s: State, a: Action): (t: State)
    requires Sized(p) && Fits(p, s) && Enabled(p, s, a)
    ensures Fits(p, t)
  {
    match a
    case PinAhead => s.(newest := s.newest + 1)
    case DropOldest => s.(oldest := s.oldest + 1)
    case Probe(i) => With(s, i, Producer(s.producers[i].balance, s.wt / p.cap, 1))
    case Reserve(i, size) =>
      var remaining := if automatic then p.quotas[i] else s.producers[i].balance - size;
      With(s, i, Producer(remaining, 0, 0)).(wt := s.wt + size)
    case Grant(i) => With(s, i, Producer(p.quotas[i], 0, 0))
    case ScanBlocked(i) => With(s, i, Producer(s.producers[i].balance, 0, 0))
    case ScanZero(i) =>
      var q := s.producers[i];
      With(s, i, q.(step := q.step + 1))
  }

  /** A step the explorer takes: enabled, and not the reservation it reports instead. */
  ghost predicate CanStep(p: Params, s: State, a: Action)
    requires Sized(p) && Fits(p, s)
  {
    Enabled(p, s, a) && !Violates(p, s, a)
  }

  /** `acts` leads from `s` to `t`, every step taken and none of them violating. */
  ghost predicate Run(p: Params, automatic: bool, s: State, acts: seq<Action>, t: State)
    requires Sized(p) && Fits(p, s)
    decreases |acts|
  {
    if acts == [] then s == t
    else CanStep(p, s, acts[0]) && Run(p, automatic, Apply(p, automatic, s, acts[0]), acts[1..], t)
  }

  ghost predicate Reachable(p: Params, automatic: bool, t: State)
    requires Sized(p)
  {
    exists acts: seq<Action> :: Run(p, automatic, Start(p), acts, t)
  }

  lemma {:induction false} RunAppend(p: Params, automatic: bool, s: State, acts: seq<Action>, t: State,
                                     more: seq<Action>, u: State)
    requires Sized(p) && Fits(p, s) && Fits(p, t)
    requires Run(p, automatic, s, acts, t) && Run(p, automatic, t, more, u)
    ensures Run(p, automatic, s, acts + more, u)
    decreases |acts|
  {
    if acts == [] {
      assert acts + more == more;
    } else {
      RunAppend(p, automatic, Apply(p, automatic, s, acts[0]), acts[1..], t, more, u);
      assert (acts + more)[1..] == acts[1..] + more;
    }
  }

  lemma StepRun(p: Params, automatic: bool, s: State, a: Action)
    requires Sized(p) && Fits(p, s) && CanStep(p, s, a)
    ensures Run(p, automatic, s, [a], Apply(p, automatic, s, a))
  {
    assert [a][1..] == [];
  }

  /** The last step of a run, for arguments that grow runs at the end. */
  lemma RunSnoc(p: Params, automatic: bool, s: State, acts: seq<Action>, t: State, a: Action)
    requires Sized(p) && Fits(p, s) && Run(p, automatic, s, acts, t)
    requires Fits(p, t) && CanStep(p, t, a)
    ensures Run(p, automatic, s, acts + [a], Apply(p, automatic, t, a))
  {
    StepRun(p, automatic, t, a);
    RunAppend(p, automatic, s, acts, t, [a], Apply(p, automatic, t, a));
  }

  // Arithmetic of slots.

  lemma ModAdd(a: nat, k: nat)
    requires k > 0
    ensures (a + k) % k == a % k
  {
    var q, r := a / k, a % k;
    assert a == q * k + r;
    assert a + k == (q + 1) * k + r;
    ModUnique(a + k, k, q + 1, r);
  }

  /** A multiple of `k` that lies strictly between `-k` and `k` is zero. */
  lemma SmallMultiple(d: int, k: nat)
    requires -(k as int) < d * k < k
    ensures d == 0
  {
  }

  lemma ModUnique(a: nat, k: nat, q: int, r: nat)
    requires k > 0 && a == q * k + r && r < k
    ensures a % k == r && a / k == q
  {
    assert (q - a / k) * k == a % k - r;
    SmallMultiple(q - a / k, k);
  }

  /** Epochs less than a ring apart sit in different slots. */
  lemma SlotsDiffer(a: nat, b: nat, k: nat)
    requires k > 0 && a < b < a + k
    ensures a % k != b % k
  {
    if a % k == b % k {
      assert (b / k - a / k) * k == b - a;
      SmallMultiple(b / k - a / k, k);
    }
  }

  lemma MulMonotone(a: int, b: int, c: nat)
    requires a <= b
    ensures a * c <= b * c
  {
  }

  /** Division by the segment capacity, both ways round. */
  lemma DivBounds(x: nat, cap: nat, e: int)
    requires cap > 0
    ensures x / cap < e <==> x < e * cap
  {
    var q, r := x / cap, x % cap;
    assert x == q * cap + r;
    if q < e {
      assert (q + 1) * cap <= e * cap;
    } else {
      assert e * cap <= q * cap;
    }
  }

  /** A scan of `Need(p)` slots covers a round of quotas, and it fits in the ring exactly for
      admitted quotas. */
  lemma NeedCovers(p: Params)
    requires Sized(p)
    ensures (Need(p) - 1) * p.cap < ExMax(p) <= Need(p) * p.cap || (ExMax(p) == 0 && Need(p) == 0)
    ensures Admitted(p) ==> 1 <= Need(p) <= p.k - 1
    ensures ExMax(p) > (p.k - 1) * p.cap ==> Need(p) >= p.k
  {
    var n, q := ExMax(p) + p.cap - 1, Need(p);
    DivBounds(n, p.cap, q + 1);
    assert (q + 1) * p.cap == q * p.cap + p.cap;
    DivBounds(n, p.cap, 1);
    DivBounds(n, p.cap, p.k);
    assert p.k * p.cap == (p.k - 1) * p.cap + p.cap;
  }
}
