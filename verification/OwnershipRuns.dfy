/** Ownership over every interleaving of create, copy, move, assign and destroy: exact reference
    counts, one destruction per Farm and only after its handles, failure without effect, no leak. */
module OwnershipRuns {
  import opened Options
  import opened Ownership
  import opened OwnershipInvariant
  import opened OwnershipSteps
  import opened OwnershipReferences
  import opened OwnershipCounts
  import opened OwnershipCalls

  /** What any thread may do next. */
  datatype Action = Begins(t: Id, b: Start) | Advances(t: Id, c: Choice) | Returns(t: Id)

  /** One step of one thread. That every wrapper has its `farm_ref` and that a phase finds what it
      dereferences only makes the step well-defined: both hold in every reachable state. */
  ghost predicate Does(s: State, a: Action, s': State) {
    match a
    case Begins(t, b) =>
      MayBegin(s, t, b) && (forall o :: o in s.objects ==> Member(o) in s.slots) && s' == Begin(s, t, b)
    case Advances(t, c) => t in s.calls && Ready(s, t, s.calls[t].phase) && Advance(s, t, c) == Some(s')
    case Returns(t) => t in s.calls && s.calls[t].phase.Done? && s' == Returned(s, t)
  }

  /** `trace` lists the states from `s` on; its last one is `u`. */
  ghost predicate Run(s: State, actions: seq<Action>, trace: seq<State>, u: State)
    decreases |actions|
  {
    if actions == [] then trace == [] && u == s
    else |trace| == |actions| && Does(s, actions[0], trace[0]) && Run(trace[0], actions[1..], trace[1..], u)
  }

  ghost predicate Reachable(s: State) {
    exists actions, trace :: Run(EMPTY, actions, trace, s)
  }

  lemma StepKeeps(s: State, a: Action, s': State)
    requires Inv(s) && Does(s, a, s')
    ensures Inv(s')
  {
    match a
    case Begins(t, b) => BeginKeeps(s, t, b);
    case Advances(t, c) => AdvanceKeeps(s, t, c);
    case Returns(t) => ReturnedKeeps(s, t);
  }

  lemma {:induction false} RunKeeps(s: State, actions: seq<Action>, trace: seq<State>, u: State)
    requires Inv(s) && Run(s, actions, trace, u)
    ensures Inv(u)
    decreases |actions|
  {
    if actions == [] {
    } else {
      StepKeeps(s, actions[0], trace[0]);
      RunKeeps(trace[0], actions[1..], trace[1..], u);
    }
  }

  lemma ReachableInv(s: State)
    requires Reachable(s)
    ensures Inv(s)
  {
    var actions, trace :| Run(EMPTY, actions, trace, s);
    RunKeeps(EMPTY, actions, trace, s);
  }

  // Main results.

  /** The counter of every control block is the number of live `farm_ref`s on it, parameters of
      assignments in progress included, and every live `farm_ref` is on an existing control block. */
  lemma ReferencesExact(s: State, f: Id)
    requires Reachable(s)
    ensures f in s.references ==> s.references[f] == |Owners(s.slots, f)|
    ensures Owners(s.slots, f) != {} ==> f in s.references && f in s.farms && s.farms[f].destroys == 0
  {
    ReachableInv(s);
    assert f in s.references ==> CountOk(s, f);
    if Owners(s.slots, f) != {} {
      var k :| k in Owners(s.slots, f);
      NamedFarm(s, k, f);
    }
  }

  /** No call ever follows a pointer to something already freed or uses a destroyed Farm. */
  lemma NothingDangles(s: State, t: Id)
    requires Reachable(s) && t in s.calls
    ensures Ready(s, t, s.calls[t].phase) && Alive(s, s.calls[t].phase)
  {
    ReachableInv(s);
    InvReady(s, t);
    Facts(s, t);
    PointeesAlive(s);
    ChargeAlive(s, t);
    BlocksAlive(s, s.calls[t].phase);
    FarmsOpen(s, s.calls[t].phase);
    HandlesAlive(s, t);
  }

  ghost predicate PointeeAlive(s: State, k: Slot) {
    forall f :: f in Pointee(s, k) ==> f in s.references && f in s.farms && s.farms[f].destroys == 0
  }

  lemma PointeesAlive(s: State)
    requires Inv(s)
    ensures forall k :: PointeeAlive(s, k)
  {
    forall k ensures PointeeAlive(s, k) {
      if k in s.slots && s.slots[k].Some? {
        NamedFarm(s, k, s.slots[k].value);
      }
    }
  }

  /** What a call has to destroy or free is still there, and what it has to destroy is open. */
  ghost predicate ChargeOk(s: State, ph: Phase) {
    && (ph.Destroying? || ph.Deleting? ==> ph.f in s.references)
    && (ph.Opened? || ph.Refused? || ph.Destroying? ==> ph.f in s.farms && s.farms[ph.f].destroys == 0)
  }

  lemma ChargeAlive(s: State, t: Id)
    requires t in s.calls && CallOk(s, t)
    ensures ChargeOk(s, s.calls[t].phase)
  {
  }

  lemma BlocksAlive(s: State, ph: Phase)
    requires (forall k :: PointeeAlive(s, k)) && ChargeOk(s, ph)
    ensures Blocks(s, ph) <= s.references.Keys
  {
    match ph
    case Opening(out) => assert PointeeAlive(s, Member(out));
    case Attaching(_, from) => assert PointeeAlive(s, Member(from));
    case Viewed(_, from, _) => assert PointeeAlive(s, Member(from));
    case Attached(_, from, _) => assert PointeeAlive(s, Member(from));
    case Resetting(o, _) => assert PointeeAlive(s, Member(o));
    case Dropping(k, _) => assert PointeeAlive(s, k);
    case _ =>
  }

  /** The handle that a reset returns belongs to the Farm that its wrapper retains. */
  lemma FarmsOpen(s: State, ph: Phase)
    requires (forall k :: PointeeAlive(s, k)) && ChargeOk(s, ph) && (ph.Resetting? ==> Settled(s, ph.o))
    ensures forall f :: f in OpenFarms(s, ph) ==> f in s.farms && s.farms[f].destroys == 0
  {
    match ph
    case Attaching(_, from) => assert PointeeAlive(s, Member(from));
    case Viewed(_, from, _) => assert PointeeAlive(s, Member(from));
    case Resetting(o, _) => assert PointeeAlive(s, Member(o));
    case _ =>
  }

  lemma HandlesAlive(s: State, t: Id)
    requires t in s.calls && CallOk(s, t)
    ensures HandlesUsed(s, s.calls[t].phase) <= s.handles.Keys
  {
  }

  /** A handle bound to a Farm has a live `farm_ref` on that Farm's control block. */
  lemma HandleRetainsFarm(s: State, h: Id, f: Id)
    requires Inv(s) && h in s.handles && s.handles[h].farm == Some(f)
    ensures Owners(s.slots, f) != {}
  {
    assert HandleOk(s, h);
    match s.handles[h].owner
    case ByObject(o) =>
      if Free(s, o) {
        assert ObjectOk(s, o);
        assert Member(o) in Owners(s.slots, f);
      } else {
        var t :| t in s.calls && o in Exclusive(s.calls[t].phase);
        BusyHolder(s, t, o, h, f);
      }
    case ByCall(t) =>
      assert CallOk(s, t);
      CarrierHolds(s, t, h, f);
  }

  lemma CarrierHolds(s: State, t: Id, h: Id, f: Id)
    requires t in s.calls && CallOk(s, t) && Carried(s.calls[t].phase) == Some(h)
    requires h in s.handles && s.handles[h].farm == Some(f)
    ensures Owners(s.slots, f) != {}
  {
    var ph := s.calls[t].phase;
    var k := if ph.Attached? then Member(ph.from) else if ph.Swapping? then Temp(t) else Target(ThenOf(ph));
    assert k in Owners(s.slots, f);
  }

  lemma BusyHolder(s: State, t: Id, o: Id, h: Id, f: Id)
    requires t in s.calls && CallOk(s, t) && o in Exclusive(s.calls[t].phase)
    requires o in s.objects && ObjectOk(s, o) && s.objects[o].value == Some(h)
    requires h in s.handles && s.handles[h].farm == Some(f)
    ensures Owners(s.slots, f) != {}
  {
    var ph := s.calls[t].phase;
    var k := if ph.Swapping? then Temp(t) else if ThenOf(ph).Transfer? then Target(ThenOf(ph)) else Member(o);
    assert k in Owners(s.slots, f);
  }

  lemma BeginFarms(s: State, t: Id, b: Start)
    requires MayBegin(s, t, b) && (forall o :: o in s.objects ==> Member(o) in s.slots)
    ensures Begin(s, t, b).farms == s.farms
  {
  }

  lemma DestroyStep(s: State, a: Action, s': State, f: Id)
    requires Does(s, a, s') && f in s.farms && f in s'.farms && s'.farms[f].destroys != s.farms[f].destroys
    ensures a.Advances? && (s.calls[a.t].phase.Refused? || s.calls[a.t].phase.Destroying?)
    ensures s.calls[a.t].phase.f == f && s'.farms[f].destroys == s.farms[f].destroys + 1
  {
    match a
    case Begins(t, b) => BeginFarms(s, t, b);
    case Returns(_) =>
    case Advances(t, c) => DestroyAdvance(s, t, c, f);
  }

  lemma DestroyAdvance(s: State, t: Id, c: Choice, f: Id)
    requires t in s.calls && Ready(s, t, s.calls[t].phase) && Advance(s, t, c).Some? && f in s.farms
    requires var s' := Advance(s, t, c).value; f in s'.farms && s'.farms[f].destroys != s.farms[f].destroys
    ensures s.calls[t].phase.Refused? || s.calls[t].phase.Destroying?
    ensures s.calls[t].phase.f == f && Advance(s, t, c).value.farms[f].destroys == s.farms[f].destroys + 1
  {
    if Factory(s.calls[t].phase) {
      FactoryDestroys(s, t, c, f);
    } else {
      OwnerDestroys(s, t, f);
    }
  }

  lemma FactoryDestroys(s: State, t: Id, c: Choice, f: Id)
    requires t in s.calls && Factory(s.calls[t].phase) && Ready(s, t, s.calls[t].phase) && f in s.farms
    requires StepFactory(s, t, c).Some?
    requires var s' := StepFactory(s, t, c).value; f in s'.farms && s'.farms[f].destroys != s.farms[f].destroys
    ensures s.calls[t].phase.Refused? && s.calls[t].phase.f == f
    ensures StepFactory(s, t, c).value.farms[f].destroys == s.farms[f].destroys + 1
  {
  }

  lemma OwnerDestroys(s: State, t: Id, f: Id)
    requires t in s.calls && !Factory(s.calls[t].phase) && !s.calls[t].phase.Done?
    requires Ready(s, t, s.calls[t].phase) && f in s.farms
    requires var s' := StepOwner(s, t); f in s'.farms && s'.farms[f].destroys != s.farms[f].destroys
    ensures s.calls[t].phase.Destroying? && s.calls[t].phase.f == f
    ensures StepOwner(s, t).farms[f].destroys == s.farms[f].destroys + 1
  {
    match s.calls[t].phase
    case Resetting(o, next) => ResetDestroysNothing(s, t, o, next);
    case Dropping(k, n) => DropDestroysNothing(s, t, k, n, f);
    case Continuing(n) => EndDestroysNothing(s, t, n);
    case _ =>
  }

  lemma ResetDestroysNothing(s: State, t: Id, o: Id, next: Option<Id>)
    requires t in s.calls && Ready(s, t, Resetting(o, next))
    ensures StepResetting(s, t, o, next).farms == s.farms
  {
  }

  lemma EndDestroysNothing(s: State, t: Id, n: Then)
    requires t in s.calls && Ready(s, t, Continuing(n))
    ensures StepContinuing(s, t, n).farms == s.farms
  {
  }

  lemma DropDestroysNothing(s: State, t: Id, k: Slot, n: Then, f: Id)
    requires t in s.calls && Ready(s, t, Dropping(k, n)) && f in s.farms
    ensures var s' := StepDropping(s, t, k, n); f in s'.farms && s'.farms[f].destroys == s.farms[f].destroys
  {
  }

  lemma AboutToDestroy(s: State, t: Id, f: Id)
    requires Inv(s) && t in s.calls && Charge(s.calls[t].phase) == Some(f)
    requires s.calls[t].phase.Refused? || s.calls[t].phase.Destroying?
    ensures f in s.farms && s.farms[f].destroys == 0 && Owners(s.slots, f) == {}
    ensures forall h :: h in s.handles ==> s.handles[h].farm != Some(f)
  {
    Facts(s, t);
    NoOwner(s, f);
    forall h | h in s.handles ensures s.handles[h].farm != Some(f) {
      if s.handles[h].farm == Some(f) {
        HandleRetainsFarm(s, h, f);
      }
    }
  }

  /** The step that runs `af_destroy` finds the Farm open, no reference on it and no handle of it. */
  lemma DestroysLast(s: State, a: Action, s': State, f: Id)
    requires Reachable(s) && Does(s, a, s') && f in s.farms && f in s'.farms
    requires s'.farms[f].destroys != s.farms[f].destroys
    ensures s.farms[f].destroys == 0 && s'.farms[f].destroys == 1
    ensures Owners(s.slots, f) == {}
    ensures forall h :: h in s.handles ==> s.handles[h].farm != Some(f)
  {
    ReachableInv(s);
    DestroyStep(s, a, s', f);
    AboutToDestroy(s, a.t, f);
  }

  /** Every Farm is destroyed at most once, and in a state without calls in progress exactly once
      when no wrapper refers to it and not at all otherwise. */
  lemma DestroyedOnce(s: State, f: Id)
    requires Reachable(s) && f in s.farms
    ensures s.farms[f].destroys <= 1
    ensures s.calls == map[] ==> s.farms[f].destroys == (if Owners(s.slots, f) == {} then 1 else 0)
    ensures s.calls == map[] ==> (f in s.references <==> Owners(s.slots, f) != {})
  {
    ReachableInv(s);
    assert FarmOk(s, f);
    if s.farms[f].charge.Some? {
      assert CallOk(s, s.farms[f].charge.value);
    } else if f in s.references {
      assert CountOk(s, f);
    } else {
      NoOwner(s, f);
    }
  }

  /** When every call has returned and every wrapper is gone, nothing is left. */
  lemma NoLeak(s: State)
    requires Reachable(s) && s.calls == map[] && s.objects == map[]
    ensures s.handles == map[] && s.references == map[] && s.slots == map[]
    ensures forall f :: f in s.farms ==> s.farms[f].destroys == 1
  {
    ReachableInv(s);
    forall h ensures h !in s.handles {}
    forall k ensures k !in s.slots {}
    forall f ensures f !in s.references {}
    forall f | f in s.farms ensures s.farms[f].destroys == 1 {
      assert FarmOk(s, f);
    }
  }

  // Whole calls.

  /** The call can still fail, and has not written to its output. */
  predicate Failable(ph: Phase, out: Id) {
    match ph
    case Opening(o) => o == out
    case Opened(o, _) => o == out
    case Refused(o, _) => o == out
    case Attaching(o, _) => o == out
    case Viewed(o, _, _) => o == out
    case Unviewing(o, _, _) => o == out
    case Attached(o, _, _) => o == out
    case _ => false
  }

  /** The call can only succeed from here. */
  predicate Committed(ph: Phase) {
    ph.Swapping? || ph.Dropping? || ph.Destroying? || ph.Deleting? || ph.Continuing? || ph.Done?
  }

  lemma StayOnTrack(s: State, t: Id, c: Choice, s': State, out: Id)
    requires Does(s, Advances(t, c), s') && (Failable(s.calls[t].phase, out) || Committed(s.calls[t].phase))
    ensures t in s'.calls && (Failable(s'.calls[t].phase, out) || Committed(s'.calls[t].phase))
    ensures s'.calls[t].was == s.calls[t].was
  {
  }

  lemma BeginOthers(s: State, t: Id, b: Start, u: Id)
    requires MayBegin(s, t, b) && (forall o :: o in s.objects ==> Member(o) in s.slots) && u in s.calls
    ensures u in Begin(s, t, b).calls && Begin(s, t, b).calls[u] == s.calls[u]
  {
  }

  lemma OthersKeepCall(s: State, a: Action, s': State, t: Id)
    requires Does(s, a, s') && t in s.calls && a.t != t
    ensures t in s'.calls && s'.calls[t] == s.calls[t]
  {
    match a
    case Begins(u, b) => BeginOthers(s, u, b, t);
    case Advances(u, c) => assert Progresses(s, s', u);
    case Returns(_) =>
  }

  /** Thread `t` does not return from its call. */
  ghost predicate Silent(actions: seq<Action>, t: Id) {
    forall i :: 0 <= i < |actions| ==> actions[i] != Returns(t)
  }

  lemma {:induction false} CallOnTrack(s: State, actions: seq<Action>, trace: seq<State>, u: State, t: Id, out: Id)
    requires Run(s, actions, trace, u) && Silent(actions, t)
    requires t in s.calls && (Failable(s.calls[t].phase, out) || Committed(s.calls[t].phase))
    ensures t in u.calls && (Failable(u.calls[t].phase, out) || Committed(u.calls[t].phase))
    ensures u.calls[t].was == s.calls[t].was
    decreases |actions|
  {
    if actions == [] {
    } else {
      if actions[0].t != t {
        OthersKeepCall(s, actions[0], trace[0], t);
      } else {
        StayOnTrack(s, t, actions[0].c, trace[0], out);
      }
      CallOnTrack(trace[0], actions[1..], trace[1..], u, t, out);
    }
  }

  lemma FailingStep(s: State, s': State, t: Id, out: Id)
    requires t in s.calls && PhaseOk(s, t, s.calls[t].phase, s.calls[t].was) && Progresses(s, s', t)
    requires Failable(s.calls[t].phase, out) || Committed(s.calls[t].phase)
    requires s'.calls[t].phase.Done? && s'.calls[t].phase.status != Ok
    ensures Holds(s', out, s.calls[t].was)
  {
    assert Holds(s, out, s.calls[t].was);
  }

  /** A factory that fails, for whatever reason and whatever other threads did meanwhile, leaves its
      output exactly as the call found it. */
  lemma FailureLeavesOutput(s: State, t: Id, b: Start, actions: seq<Action>, trace: seq<State>, u: State, c: Choice,
                            u': State)
    requires Reachable(s) && (b.CreateFarm? || b.CreateHolder?) && MayBegin(s, t, b)
    requires forall o :: o in s.objects ==> Member(o) in s.slots
    requires Run(Begin(s, t, b), actions, trace, u) && Silent(actions, t)
    requires Does(u, Advances(t, c), u') && t in u'.calls && u'.calls[t].phase.Done? && u'.calls[t].phase.status != Ok
    ensures Holds(u', b.out, ContentsOf(s, b.out))
  {
    ReachableInv(s);
    StepKeeps(s, Begins(t, b), Begin(s, t, b));
    RunKeeps(Begin(s, t, b), actions, trace, u);
    CallOnTrack(Begin(s, t, b), actions, trace, u, t, b.out);
    Facts(u, t);
    FailingStep(u, u', t, b.out);
  }

  /** A move in progress from `src` to `dst`. */
  predicate Moving(ph: Phase, dst: Id, src: Id) {
    || ph == Resetting(dst, Some(src)) || ph == Unsubscribed(dst, Some(src)) || ph == Taking(dst, src)
    || (Committed(ph) && ThenOf(ph) == Transfer(dst, src))
  }

  lemma MoveFollows(a: Phase, b: Phase, dst: Id, src: Id)
    requires Moving(a, dst, src) && Follows(a, b)
    ensures Moving(b, dst, src) || (a == Continuing(Transfer(dst, src)) && b == Done(Ok))
  {
  }

  lemma {:induction false} MoveOnTrack(s: State, actions: seq<Action>, trace: seq<State>, u: State, t: Id, dst: Id,
                                       src: Id)
    requires Run(s, actions, trace, u) && Silent(actions, t)
    requires t in s.calls && (Moving(s.calls[t].phase, dst, src) || s.calls[t].phase.Done?)
    ensures t in u.calls && (Moving(u.calls[t].phase, dst, src) || u.calls[t].phase.Done?)
    ensures u.calls[t].was == s.calls[t].was
    decreases |actions|
  {
    if actions == [] {
    } else {
      var a := actions[0];
      if a.t != t {
        OthersKeepCall(s, a, trace[0], t);
      } else if Moving(s.calls[t].phase, dst, src) {
        MoveFollows(s.calls[t].phase, trace[0].calls[t].phase, dst, src);
      }
      MoveOnTrack(trace[0], actions[1..], trace[1..], u, t, dst, src);
    }
  }

  lemma LastMoveStep(s: State, t: Id, dst: Id, src: Id)
    requires t in s.calls && s.calls[t].phase == Continuing(Transfer(dst, src)) && Ready(s, t, s.calls[t].phase)
    requires PhaseOk(s, t, s.calls[t].phase, s.calls[t].was) && Member(dst) in s.slots
    ensures Holds(StepContinuing(s, t, Transfer(dst, src)), dst, s.calls[t].was)
    ensures dst != src ==> Holds(StepContinuing(s, t, Transfer(dst, src)), src, Contents(None, None))
  {
  }

  lemma MoveBegins(s: State, t: Id, b: Start, dst: Id, src: Id)
    requires MayBegin(s, t, b) && forall o :: o in s.objects ==> Member(o) in s.slots
    requires b == MoveConstruct(dst, src) || b == MoveAssign(dst, src)
    ensures t in Begin(s, t, b).calls
    ensures var ph := Begin(s, t, b).calls[t].phase; Moving(ph, dst, src) || ph.Done?
    ensures src in s.objects && Begin(s, t, b).calls[t].was == ContentsOf(s, src)
  {
  }

  lemma AdvanceContinuing(s: State, t: Id, c: Choice, n: Then)
    requires t in s.calls && s.calls[t].phase == Continuing(n) && Ready(s, t, s.calls[t].phase)
    ensures Advance(s, t, c) == Some(StepContinuing(s, t, n))
  {
  }

  lemma MovesLast(a: Phase, b: Phase, dst: Id, src: Id)
    requires (Moving(a, dst, src) || a.Done?) && Follows(a, b) && b.Done?
    ensures a == Continuing(Transfer(dst, src))
  {
    if Moving(a, dst, src) {
      MoveFollows(a, b, dst, src);
    }
  }

  lemma MoveEnds(u: State, u': State, t: Id, c: Choice, dst: Id, src: Id)
    requires t in u.calls && (Moving(u.calls[t].phase, dst, src) || u.calls[t].phase.Done?)
    requires PhaseOk(u, t, u.calls[t].phase, u.calls[t].was) && (dst in u.objects ==> Member(dst) in u.slots)
    requires Ready(u, t, u.calls[t].phase) && Advance(u, t, c) == Some(u')
    requires Progresses(u, u', t) && u'.calls[t].phase.Done?
    ensures Holds(u', dst, u.calls[t].was) && (dst != src ==> Holds(u', src, Contents(None, None)))
  {
    MovesLast(u.calls[t].phase, u'.calls[t].phase, dst, src);
    AdvanceContinuing(u, t, c, Transfer(dst, src));
    LastMoveStep(u, t, dst, src);
  }

  /** `u` is where the call that begins with `b` has just completed: at once, or by its last step
      after other threads and it have taken `actions`. */
  ghost predicate Completes(s: State, t: Id, b: Start, actions: seq<Action>, trace: seq<State>, before: State,
                            c: Choice, u: State)
    requires MayBegin(s, t, b) && forall o :: o in s.objects ==> Member(o) in s.slots
  {
    && t in u.calls && u.calls[t].phase.Done?
    && (u == Begin(s, t, b) ||
        (Run(Begin(s, t, b), actions, trace, before) && Silent(actions, t) && Does(before, Advances(t, c), u)))
  }

  /** A completed move gives the target exactly what the source held when the call began and leaves
      the source empty, whatever other threads did meanwhile; an object assigned to itself, of
      whatever kind, ends with what it held. */
  lemma MoveDelivers(s: State, t: Id, b: Start, dst: Id, src: Id,
                     actions: seq<Action>, trace: seq<State>, before: State, c: Choice, u: State)
    requires Reachable(s) && MayBegin(s, t, b) && forall o :: o in s.objects ==> Member(o) in s.slots
    requires b == MoveConstruct(dst, src) || b == MoveAssign(dst, src)
    requires Completes(s, t, b, actions, trace, before, c, u)
    ensures Holds(u, dst, ContentsOf(s, src)) && (dst != src ==> Holds(u, src, Contents(None, None)))
  {
    if u != Begin(s, t, b) {
      ReachableInv(s);
      BeginKeeps(s, t, b);
      RunKeeps(Begin(s, t, b), actions, trace, before);
      MoveBegins(s, t, b, dst, src);
      MoveOnTrack(Begin(s, t, b), actions, trace, before, t, dst, src);
      Facts(before, t);
      ObjectsHaveSlots(before);
      MoveEnds(before, u, t, c, dst, src);
    }
  }

  // Calls end.

  function Rank(ph: Phase): nat {
    match ph
    case Opening(_) => 7
    case Opened(_, _) => 6
    case Refused(_, _) => 1
    case Attaching(_, _) => 8
    case Viewed(_, _, _) => 7
    case Unviewing(_, _, _) => 1
    case Attached(_, _, _) => 6
    case Resetting(_, _) => 8
    case Unsubscribed(_, _) => 7
    case Taking(_, _) => 6
    case Swapping(_, _) => 5
    case Dropping(_, _) => 4
    case Destroying(_, _) => 3
    case Deleting(_, _) => 2
    case Continuing(_) => 1
    case Done(_) => 0
  }

  lemma FollowsDescends(a: Phase, b: Phase)
    requires Follows(a, b)
    ensures Rank(b) < Rank(a)
  {
  }

  /** No call waits for another thread, and no answer of the environment stops it: it may fail with
      any status, and succeed with any handle or Farm that does not exist yet. */
  lemma CanStep(s: State, t: Id, c: Choice)
    requires t in s.calls && Ready(s, t, s.calls[t].phase) && !s.calls[t].phase.Done?
    requires match c
             case Fails(status) => status != Ok
             case Gives(id) =>
               && id !in s.farms && id !in s.handles
               && (s.calls[t].phase.Attaching? ==> s.slots[Member(s.calls[t].phase.from)].Some?)
    ensures Advance(s, t, c).Some?
  {
  }

  /** The steps of thread `t` among `actions`. */
  function OwnSteps(actions: seq<Action>, t: Id): nat {
    if actions == [] then 0
    else (if actions[0].Advances? && actions[0].t == t then 1 else 0) + OwnSteps(actions[1..], t)
  }

  /** Whatever the C functions answer and whatever other threads do in between, a call takes at most
      eight steps of its own: each brings it closer to its end. */
  lemma {:induction false} CallsAreShort(s: State, actions: seq<Action>, trace: seq<State>, u: State, t: Id)
    requires Run(s, actions, trace, u) && t in s.calls && Silent(actions, t)
    ensures t in u.calls
    ensures OwnSteps(actions, t) + Rank(u.calls[t].phase) <= Rank(s.calls[t].phase) <= 8
    decreases |actions|
  {
    if actions == [] {
    } else {
      var a, next := actions[0], trace[0];
      if a.t != t {
        OthersKeepCall(s, a, next, t);
      } else if a.Advances? {
        assert Progresses(s, next, t);
        FollowsDescends(s.calls[t].phase, next.calls[t].phase);
      }
      assert Silent(actions[1..], t) by {
        assert forall i :: 0 <= i < |actions[1..]| ==> actions[1..][i] == actions[i + 1];
      }
      CallsAreShort(next, actions[1..], trace[1..], u, t);
    }
  }

  predicate AllBy(actions: seq<Action>, t: Id) {
    forall i :: 0 <= i < |actions| ==> actions[i].Advances? && actions[i].t == t
  }

  /** `answers` gives the environment's answer in every state; an answer always fits. */
  ghost predicate Answers(answers: State -> Choice, t: Id) {
    forall s: State :: Inv(s) && t in s.calls && !s.calls[t].phase.Done? && Ready(s, t, s.calls[t].phase) ==>
      Advance(s, t, answers(s)).Some?
  }

  /** Each action of `t` uses the environment's answer in the state it is taken from. */
  ghost predicate Answered(s: State, actions: seq<Action>, trace: seq<State>, answers: State -> Choice, t: Id) {
    && |trace| == |actions|
    && forall i :: 0 <= i < |actions| ==> actions[i] == Advances(t, answers(if i == 0 then s else trace[i - 1]))
  }

  lemma OneAnswer(s: State, t: Id, answers: State -> Choice) returns (c: Choice, next: State)
    requires Inv(s) && t in s.calls && !s.calls[t].phase.Done? && Answers(answers, t)
    ensures c == answers(s) && Does(s, Advances(t, c), next) && Inv(next)
    ensures t in next.calls && Rank(next.calls[t].phase) < Rank(s.calls[t].phase)
  {
    InvReady(s, t);
    c := answers(s);
    next := Advance(s, t, c).value;
    FollowsDescends(s.calls[t].phase, next.calls[t].phase);
    AdvanceKeeps(s, t, c);
  }

  /** Left to itself a call ends under every environment. */
  lemma {:induction false} EveryCallEnds(s: State, t: Id, answers: State -> Choice)
      returns (actions: seq<Action>, trace: seq<State>, u: State)
    requires Inv(s) && t in s.calls && Answers(answers, t)
    ensures Run(s, actions, trace, u) && Answered(s, actions, trace, answers, t) && AllBy(actions, t)
    ensures t in u.calls && u.calls[t].phase.Done? && |actions| <= Rank(s.calls[t].phase) <= 8
    decreases Rank(s.calls[t].phase)
  {
    if s.calls[t].phase.Done? {
      return [], [], s;
    }
    var c, next := OneAnswer(s, t, answers);
    var rest, states, last := EveryCallEnds(next, t, answers);
    actions, trace, u := [Advances(t, c)] + rest, [next] + states, last;
    assert actions[1..] == rest && trace[1..] == states;
  }
}
