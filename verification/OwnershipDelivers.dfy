/** What completed calls deliver, for every answer of the C functions and every interleaving: a factory
    that is given a Farm or a handle stores it, one that is refused says why, and a destructor removes
    its wrapper. */
module OwnershipDelivers {
  import opened Options
  import opened Ownership
  import opened OwnershipInvariant
  import opened OwnershipSteps
  import opened OwnershipCalls
  import opened OwnershipRuns

  // Other threads leave alone what a call uses.

  predicate Held(s: State, h: Option<Id>) {
    h.Some? && h.value in s.handles
  }

  /** The object `o`, its `farm_ref` and the handle `h`, if one is given, are as they were. */
  ghost predicate Leaves(s: State, s': State, o: Id, h: Option<Id>) {
    ObjectSame(s, s', o) && (Held(s, h) ==> h.value in s'.handles && s'.handles[h.value] == s.handles[h.value])
  }

  lemma AttachLeaves(s: State, u: Id, c: Choice, out: Id, from: Id, o: Id, h: Option<Id>)
    requires u in s.calls && Ready(s, u, Attaching(out, from)) && StepAttaching(s, u, c, out, from).Some?
    ensures Leaves(s, StepAttaching(s, u, c, out, from).value, o, h)
  {
  }

  lemma FactoryLeaves(s: State, u: Id, c: Choice, o: Id, h: Option<Id>)
    requires u in s.calls && Factory(s.calls[u].phase) && Ready(s, u, s.calls[u].phase)
    requires PhaseOk(s, u, s.calls[u].phase, s.calls[u].was) && StepFactory(s, u, c).Some?
    requires Held(s, h) ==> s.handles[h.value].owner != ByCall(u)
    ensures Leaves(s, StepFactory(s, u, c).value, o, h)
  {
    var ph := s.calls[u].phase;
    if ph.Attaching? {
      AttachLeaves(s, u, c, ph.out, ph.from, o, h);
    }
  }

  lemma ResetLeaves(s: State, u: Id, o: Id, next: Option<Id>, q: Id, h: Option<Id>)
    requires u in s.calls && Ready(s, u, Resetting(o, next)) && ObjectOk(s, o) && q != o
    requires Held(s, h) ==> s.handles[h.value].owner != ByObject(o)
    ensures Leaves(s, StepResetting(s, u, o, next), q, h)
  {
  }

  lemma DropLeaves(s: State, u: Id, k: Slot, n: Then, o: Id, h: Option<Id>)
    requires u in s.calls && Ready(s, u, Dropping(k, n)) && k != Member(o)
    ensures Leaves(s, StepDropping(s, u, k, n), o, h)
  {
  }

  lemma ContinueLeaves(s: State, u: Id, n: Then, o: Id, h: Option<Id>)
    requires u in s.calls && Ready(s, u, Continuing(n)) && ObjectsOk(s) && o !in ThenUses(n)
    requires ThenOk(s, u, n, Target(n), s.calls[u].was)
    requires Held(s, h) ==> s.handles[h.value].owner.ByCall? && s.handles[h.value].owner != ByCall(u)
    ensures Leaves(s, StepContinuing(s, u, n), o, h)
  {
    if n.Transfer? {
      assert ObjectOk(s, n.src);
    }
  }

  /** The steps that move references or dispose of a Farm. */
  lemma MoveLeaves(s: State, u: Id, o: Id, h: Option<Id>)
    requires u in s.calls && Ready(s, u, s.calls[u].phase) && o !in Exclusive(s.calls[u].phase)
    requires var ph := s.calls[u].phase; ph.Taking? || ph.Swapping? || ph.Destroying? || ph.Deleting?
    ensures Leaves(s, StepOwner(s, u), o, h)
  {
  }

  lemma UnsubscribedLeaves(s: State, u: Id, q: Id, next: Option<Id>, o: Id, h: Option<Id>)
    requires u in s.calls && s.calls[u].phase == Unsubscribed(q, next) && Ready(s, u, Unsubscribed(q, next))
    requires ObjectOk(s, q) && o != q && (Held(s, h) ==> s.handles[h.value].owner != ByObject(q))
    ensures Leaves(s, StepOwner(s, u), o, h)
  {
  }

  lemma OwnerLeaves(s: State, u: Id, o: Id, h: Option<Id>)
    requires u in s.calls && !Factory(s.calls[u].phase) && !s.calls[u].phase.Done?
    requires Ready(s, u, s.calls[u].phase) && PhaseOk(s, u, s.calls[u].phase, s.calls[u].was) && ObjectsOk(s)
    requires o !in Exclusive(s.calls[u].phase)
    requires Held(s, h) ==> s.handles[h.value].owner.ByCall? && s.handles[h.value].owner != ByCall(u)
    ensures Leaves(s, StepOwner(s, u), o, h)
  {
    match s.calls[u].phase
    case Resetting(q, next) =>
      assert ObjectOk(s, q);
      ResetLeaves(s, u, q, next, o, h);
    case Unsubscribed(q, next) =>
      assert ObjectOk(s, q);
      UnsubscribedLeaves(s, u, q, next, o, h);
    case Dropping(k, n) => DropLeaves(s, u, k, n, o, h);
    case Continuing(n) => ContinueLeaves(s, u, n, o, h);
    case _ => MoveLeaves(s, u, o, h);
  }

  lemma BeginLeaves(s: State, u: Id, b: Start, t: Id, o: Id, h: Option<Id>)
    requires MayBegin(s, u, b) && (forall q :: q in s.objects ==> Member(q) in s.slots)
    requires t in s.calls && o in s.objects && o in Exclusive(s.calls[t].phase) + Shared(s.calls[t].phase)
    ensures Leaves(s, Begin(s, u, b), o, h)
  {
  }

  /** What a call uses, and the handle it carries, no other thread touches. */
  lemma OthersLeave(s: State, a: Action, s': State, t: Id, o: Id, h: Option<Id>)
    requires Inv(s) && Does(s, a, s') && t in s.calls && a.t != t
    requires o in s.objects && o in Exclusive(s.calls[t].phase) + Shared(s.calls[t].phase)
    requires Held(s, h) ==> s.handles[h.value].owner == ByCall(t)
    ensures Leaves(s, s', o, h)
  {
    match a
    case Begins(u, b) => BeginLeaves(s, u, b, t, o, h);
    case Returns(_) =>
    case Advances(u, c) =>
      Facts(s, u);
      assert Apart(s, u, t);
      if Factory(s.calls[u].phase) {
        FactoryLeaves(s, u, c, o, h);
      } else {
        OwnerLeaves(s, u, o, h);
      }
  }

  // What the environment has answered a call.

  /** The answers to thread `t`'s steps, in order. */
  function Own(actions: seq<Action>, t: Id): seq<Choice> {
    if actions == [] then []
    else (if actions[0].Advances? && actions[0].t == t then [actions[0].c] else []) + Own(actions[1..], t)
  }

  // farm::create.

  /** Where `farm::create(out)` is after the answers `own`, `was` being what its output held. */
  predicate FarmPhase(ph: Phase, out: Id, was: Contents, own: seq<Choice>) {
    if own == [] then ph == Opening(out)
    else if was.farm.Some? then ph == Done(Busy)
    else match own[0]
      case Fails(status) => ph == Done(status) && status != Ok
      case Gives(f) =>
        if |own| == 1 then ph == Opened(out, f)
        else if own[1].Fails? then ph == if |own| == 2 then Refused(out, f) else Done(AllocationFailed)
        else Committed(ph) && if ph.Done? then ph == Done(Ok) else ThenOf(ph) == Return(out, f)
  }

  lemma FarmOpens(s: State, s': State, t: Id, c: Choice, out: Id)
    requires t in s.calls && s.calls[t].phase == Opening(out) && PhaseOk(s, t, Opening(out), s.calls[t].was)
    requires Ready(s, t, Opening(out)) && StepOpening(s, t, c, out) == Some(s')
    ensures t in s'.calls && FarmPhase(s'.calls[t].phase, out, s.calls[t].was, [c])
  {
  }

  lemma FarmAllocates(s: State, s': State, t: Id, c: Choice, out: Id, f: Id)
    requires t in s.calls && s.calls[t].phase == Opened(out, f) && Ready(s, t, Opened(out, f))
    requires StepFactory(s, t, c) == Some(s')
    ensures t in s'.calls && s'.calls[t].phase == if c.Fails? then Refused(out, f) else Swapping(out, Return(out, f))
  {
  }

  lemma FarmFollows(a: Phase, b: Phase, out: Id, was: Contents, own: seq<Choice>, c: Choice)
    requires FarmPhase(a, out, was, own) && Follows(a, b) && |own| >= 2
    ensures FarmPhase(b, out, was, own + [c])
  {
  }

  lemma FarmStep(s: State, s': State, t: Id, c: Choice, out: Id, own: seq<Choice>)
    requires t in s.calls && PhaseOk(s, t, s.calls[t].phase, s.calls[t].was) && Ready(s, t, s.calls[t].phase)
    requires Advance(s, t, c) == Some(s') && FarmPhase(s.calls[t].phase, out, s.calls[t].was, own)
    ensures t in s'.calls && FarmPhase(s'.calls[t].phase, out, s.calls[t].was, own + [c])
  {
    assert Progresses(s, s', t);
    if own == [] {
      FarmOpens(s, s', t, c, out);
      assert own + [c] == [c];
    } else if |own| >= 2 {
      FarmFollows(s.calls[t].phase, s'.calls[t].phase, out, s.calls[t].was, own, c);
    } else if s.calls[t].phase.Opened? {
      FarmAllocates(s, s', t, c, out, s.calls[t].phase.f);
      assert own + [c] == [own[0], c];
    }
  }

  /** The answer that an action gives thread `t`, if it is a step of `t`'s. */
  function Answer(a: Action, t: Id): seq<Choice> {
    if a.Advances? && a.t == t then [a.c] else []
  }

  ghost predicate FarmTracked(s: State, t: Id, out: Id, was: Contents, own: seq<Choice>) {
    t in s.calls && s.calls[t].was == was && FarmPhase(s.calls[t].phase, out, was, own)
  }

  lemma FarmMore(s: State, a: Action, s': State, t: Id, out: Id, was: Contents, own: seq<Choice>)
    requires Inv(s) && Does(s, a, s') && a != Returns(t) && FarmTracked(s, t, out, was, own)
    ensures FarmTracked(s', t, out, was, own + Answer(a, t))
  {
    if a.t != t {
      OthersKeepCall(s, a, s', t);
      assert own + [] == own;
    } else {
      Facts(s, t);
      assert Progresses(s, s', t);
      FarmStep(s, s', t, a.c, out, own);
    }
  }

  lemma OwnCons(actions: seq<Action>, t: Id, own: seq<Choice>)
    requires actions != []
    ensures own + Answer(actions[0], t) + Own(actions[1..], t) == own + Own(actions, t)
  {
  }

  lemma SilentTail(actions: seq<Action>, t: Id)
    requires actions != [] && Silent(actions, t)
    ensures actions[0] != Returns(t) && Silent(actions[1..], t)
  {
    forall i | 0 <= i < |actions[1..]| ensures actions[1..][i] != Returns(t) {
      assert actions[1..][i] == actions[i + 1];
    }
  }

  lemma {:induction false} FarmOnTrack(s: State, actions: seq<Action>, trace: seq<State>, u: State, t: Id, out: Id,
                                       was: Contents, own: seq<Choice>)
    requires Inv(s) && Run(s, actions, trace, u) && Silent(actions, t) && FarmTracked(s, t, out, was, own)
    ensures FarmTracked(u, t, out, was, own + Own(actions, t))
    decreases |actions|
  {
    if actions == [] {
      assert own + [] == own;
    } else {
      SilentTail(actions, t);
      StepKeeps(s, actions[0], trace[0]);
      FarmMore(s, actions[0], trace[0], t, out, was, own);
      FarmOnTrack(trace[0], actions[1..], trace[1..], u, t, out, was, own + Answer(actions[0], t));
      OwnCons(actions, t, own);
    }
  }

  lemma RefusedEnds(x: State, u: State, t: Id, c: Choice, out: Id, f: Id)
    requires t in x.calls && x.calls[t].phase == Refused(out, f) && PhaseOk(x, t, Refused(out, f), x.calls[t].was)
    requires Ready(x, t, Refused(out, f)) && Advance(x, t, c) == Some(u)
    ensures f in u.farms && u.farms[f].destroys == 1
  {
  }

  lemma ReturnEnds(x: State, u: State, t: Id, c: Choice, out: Id, f: Id)
    requires t in x.calls && x.calls[t].phase == Continuing(Return(out, f)) && Member(out) in x.slots
    requires PhaseOk(x, t, Continuing(Return(out, f)), x.calls[t].was)
    requires Ready(x, t, x.calls[t].phase) && Advance(x, t, c) == Some(u)
    ensures Holds(u, out, Contents(Some(f), None))
  {
  }

  /** The phase from which `farm::create` ends. */
  lemma FarmBeforeEnd(a: Phase, b: Phase, out: Id, was: Contents, own: seq<Choice>, c: Choice)
    requires FarmPhase(a, out, was, own) && Follows(a, b) && FarmPhase(b, out, was, own + [c]) && b.Done?
    requires was.farm.None? && (own + [c])[0].Gives?
    ensures |own| >= 2 && own[0].Gives?
    ensures if own[1].Fails? then a == Refused(out, own[0].id) && b == Done(AllocationFailed)
            else a == Continuing(Return(out, own[0].id)) && b == Done(Ok)
  {
    assert own != [] ==> (own + [c])[0] == own[0];
  }

  lemma FarmEnds(x: State, u: State, t: Id, c: Choice, out: Id, was: Contents, own: seq<Choice>)
    requires Does(x, Advances(t, c), u) && FarmTracked(x, t, out, was, own)
    requires PhaseOk(x, t, x.calls[t].phase, was) && (out in x.objects ==> Member(out) in x.slots)
    requires FarmTracked(u, t, out, was, own + [c]) && u.calls[t].phase.Done?
    requires was.farm.None? && (own + [c])[0].Gives?
    ensures |own| >= 2 && own[0].Gives?
    ensures if own[1].Fails?
            then u.calls[t].phase.status == AllocationFailed && own[0].id in u.farms && u.farms[own[0].id].destroys == 1
            else u.calls[t].phase.status == Ok && Holds(u, out, Contents(Some(own[0].id), None))
  {
    assert Progresses(x, u, t);
    FarmBeforeEnd(x.calls[t].phase, u.calls[t].phase, out, was, own, c);
    if own[1].Fails? {
      RefusedEnds(x, u, t, c, out, own[0].id);
    } else {
      ReturnEnds(x, u, t, c, out, own[0].id);
    }
  }

  /** The answers to a call that has completed after some steps. */
  function AnswersTo(actions: seq<Action>, t: Id, last: Choice): (own: seq<Choice>)
    ensures own != []
  {
    Own(actions, t) + [last]
  }

  /** What `farm::create` returned, `own` being the answers it got: busy exactly for an occupied output,
      else the status of a failing `af_create`, else a failed allocation, which destroyed the fresh Farm
      once; and otherwise success, with the output owning the Farm it was given. */
  ghost predicate FarmDelivered(u: State, out: Id, was: Contents, own: seq<Choice>, status: Status)
    requires own != []
  {
    if was.farm.Some? then status == Busy && Holds(u, out, was)
    else if own[0].Fails? then status == own[0].status && status != Ok && Holds(u, out, was)
    else
      && |own| >= 2
      && var f := own[0].id;
         if own[1].Fails?
         then status == AllocationFailed && Holds(u, out, was) && f in u.farms && u.farms[f].destroys == 1
         else status == Ok && Holds(u, out, Contents(Some(f), None))
  }

  /** The Farm came into being during the call. */
  ghost predicate FarmWasNew(s: State, was: Contents, own: seq<Choice>)
    requires own != []
  {
    was.farm.None? && own[0].Gives? ==> own[0].id !in s.farms
  }

  lemma FactoryBegins(s: State, t: Id, b: Start)
    requires MayBegin(s, t, b) && (forall o :: o in s.objects ==> Member(o) in s.slots)
    requires b.CreateFarm? || b.CreateHolder?
    ensures t in Begin(s, t, b).calls && !Begin(s, t, b).calls[t].phase.Done?
  {
  }

  /** A call that does not complete at once completes by a step of its own from an invariant state. */
  lemma LastStep(s: State, t: Id, b: Start, actions: seq<Action>, trace: seq<State>, before: State, c: Choice, u: State)
    requires Inv(s) && MayBegin(s, t, b) && forall o :: o in s.objects ==> Member(o) in s.slots
    requires t in Begin(s, t, b).calls && !Begin(s, t, b).calls[t].phase.Done?
    requires Completes(s, t, b, actions, trace, before, c, u)
    ensures Inv(Begin(s, t, b)) && Run(Begin(s, t, b), actions, trace, before) && Silent(actions, t)
    ensures Inv(before) && Does(before, Advances(t, c), u)
  {
    BeginKeeps(s, t, b);
    RunKeeps(Begin(s, t, b), actions, trace, before);
  }

  lemma FarmBegins(s: State, t: Id, out: Id)
    requires MayBegin(s, t, CreateFarm(out)) && forall o :: o in s.objects ==> Member(o) in s.slots
    ensures FarmTracked(Begin(s, t, CreateFarm(out)), t, out, ContentsOf(s, out), [])
  {
  }

  lemma FactoryFarmsStay(s: State, u: Id, c: Choice, f: Id)
    requires u in s.calls && Factory(s.calls[u].phase) && Ready(s, u, s.calls[u].phase) && f in s.farms
    requires StepFactory(s, u, c).Some?
    ensures f in StepFactory(s, u, c).value.farms
  {
  }

  lemma OwnerFarmsStay(s: State, u: Id, f: Id)
    requires u in s.calls && !Factory(s.calls[u].phase) && !s.calls[u].phase.Done?
    requires Ready(s, u, s.calls[u].phase) && f in s.farms
    ensures f in StepOwner(s, u).farms
  {
    match s.calls[u].phase
    case Resetting(o, next) => ResetDestroysNothing(s, u, o, next);
    case Dropping(k, n) => DropDestroysNothing(s, u, k, n, f);
    case Continuing(n) => EndDestroysNothing(s, u, n);
    case _ =>
  }

  lemma FarmsStay(s: State, a: Action, s': State, f: Id)
    requires Does(s, a, s') && f in s.farms
    ensures f in s'.farms
  {
    match a
    case Begins(u, b) => BeginFarms(s, u, b);
    case Returns(_) =>
    case Advances(u, c) =>
      if Factory(s.calls[u].phase) {
        FactoryFarmsStay(s, u, c, f);
      } else {
        OwnerFarmsStay(s, u, f);
      }
  }

  /** The Farm that `af_create` answers with did not exist when the call began. */
  lemma {:induction false} FarmIsFresh(s: State, actions: seq<Action>, trace: seq<State>, u: State, t: Id, out: Id,
                                       was: Contents)
    requires Inv(s) && Run(s, actions, trace, u) && Silent(actions, t) && FarmTracked(s, t, out, was, [])
    requires was.farm.None?
    ensures Own(actions, t) != [] && Own(actions, t)[0].Gives? ==> Own(actions, t)[0].id !in s.farms
    decreases |actions|
  {
    if actions == [] {
    } else {
      var a, next := actions[0], trace[0];
      if a.t != t {
        SilentTail(actions, t);
        StepKeeps(s, a, next);
        FarmMore(s, a, next, t, out, was, []);
        assert [] + Answer(a, t) == [];
        FarmIsFresh(next, actions[1..], trace[1..], u, t, out, was);
        if Own(actions, t) != [] && Own(actions, t)[0].Gives? && Own(actions, t)[0].id in s.farms {
          FarmsStay(s, a, next, Own(actions, t)[0].id);
        }
      } else {
        SilentTail(actions, t);
        Facts(s, t);
        assert Own(actions, t)[0] == a.c;
      }
    }
  }

  lemma FarmTracks(s: State, t: Id, out: Id, actions: seq<Action>, trace: seq<State>, before: State, c: Choice,
                   u: State)
    requires Inv(s) && MayBegin(s, t, CreateFarm(out)) && forall o :: o in s.objects ==> Member(o) in s.slots
    requires Completes(s, t, CreateFarm(out), actions, trace, before, c, u)
    ensures Inv(before) && Does(before, Advances(t, c), u)
    ensures FarmTracked(before, t, out, ContentsOf(s, out), Own(actions, t))
    ensures FarmTracked(u, t, out, ContentsOf(s, out), AnswersTo(actions, t, c))
    ensures Own(actions, t) != [] ==> FarmWasNew(s, ContentsOf(s, out), Own(actions, t))
  {
    var b, was := CreateFarm(out), ContentsOf(s, out);
    FactoryBegins(s, t, b);
    LastStep(s, t, b, actions, trace, before, c, u);
    FarmBegins(s, t, out);
    FarmOnTrack(Begin(s, t, b), actions, trace, before, t, out, was, []);
    assert [] + Own(actions, t) == Own(actions, t);
    FarmMore(before, Advances(t, c), u, t, out, was, Own(actions, t));
    if was.farm.None? {
      BeginFarms(s, t, b);
      FarmIsFresh(Begin(s, t, b), actions, trace, before, t, out, was);
    }
  }

  /** For every answer of the C calls and whatever other threads do meanwhile. */
  lemma FarmDelivers(s: State, t: Id, out: Id, actions: seq<Action>, trace: seq<State>, before: State, c: Choice,
                     u: State)
    requires Reachable(s) && MayBegin(s, t, CreateFarm(out)) && forall o :: o in s.objects ==> Member(o) in s.slots
    requires Completes(s, t, CreateFarm(out), actions, trace, before, c, u)
    ensures FarmDelivered(u, out, ContentsOf(s, out), AnswersTo(actions, t, c), u.calls[t].phase.status)
    ensures FarmWasNew(s, ContentsOf(s, out), AnswersTo(actions, t, c))
  {
    var own, was := Own(actions, t), ContentsOf(s, out);
    ReachableInv(s);
    FarmTracks(s, t, out, actions, trace, before, c, u);
    assert own != [] ==> AnswersTo(actions, t, c)[0] == own[0];
    if was.farm.None? && AnswersTo(actions, t, c)[0].Gives? {
      Facts(before, t);
      ObjectsHaveSlots(before);
      FarmEnds(before, u, t, c, out, was, own);
      assert AnswersTo(actions, t, c)[1] == own[1];
    }
    if u.calls[t].phase.status != Ok {
      FailureLeavesOutput(s, t, CreateFarm(out), actions, trace, before, c, u);
    }
  }

  // The factories of producers, consumers and parks.

  /** What a holder's factory works with: its output's kind and contents, and the Farm it attaches to. */
  datatype Attachment = Attachment(out: Id, from: Id, kind: HandleKind, farm: Option<Id>, was: Contents)

  /** Where such a factory is after the answers `own`. */
  predicate HolderPhase(ph: Phase, x: Attachment, own: seq<Choice>) {
    if own == [] then ph == Attaching(x.out, x.from)
    else if x.was.value.Some? then ph == Done(Busy)
    else if x.kind == View && x.farm.None? then ph == Done(Invalid)
    else match own[0]
      case Fails(status) => ph == Done(status) && status != Ok
      case Gives(h) => if x.kind == View then ViewPhase(ph, x, own, h) else AttachedPhase(ph, x, |own| - 1, h)
  }

  /** A consumer's factory has obtained its view. */
  predicate ViewPhase(ph: Phase, x: Attachment, own: seq<Choice>, h: Id) {
    if |own| <= 1 then ph == Viewed(x.out, x.from, h)
    else match own[1]
      case Fails(status) => status != Ok && ph == if |own| == 2 then Unviewing(x.out, h, status) else Done(status)
      case Gives(_) => AttachedPhase(ph, x, |own| - 2, h)
  }

  /** A factory has obtained its handle, bound to the Farm, `steps` steps ago. */
  predicate AttachedPhase(ph: Phase, x: Attachment, steps: int, h: Id) {
    if steps <= 0 then ph == Attached(x.out, x.from, h)
    else Committed(ph) && if ph.Done? then ph == Done(Ok) else ThenOf(ph) == Store(x.out, h)
  }

  /** The call sees the Farm and the kind it began with, and its handle is of that kind and Farm. */
  ghost predicate HolderSeen(s: State, t: Id, ph: Phase, x: Attachment) {
    && (ph.Attaching? || ph.Viewed? || ph.Attached? ==>
          && x.out in s.objects && s.objects[x.out].kind == Holder(x.kind)
          && x.from in s.objects && Member(x.from) in s.slots && s.slots[Member(x.from)] == x.farm)
    && (ph.Attached? || ThenOf(ph).Store? ==>
          && Carried(ph).value in s.handles && s.handles[Carried(ph).value] == Handle(x.kind, x.farm, ByCall(t)))
  }

  ghost predicate HolderTracked(s: State, t: Id, x: Attachment, own: seq<Choice>) {
    && t in s.calls && s.calls[t].was == x.was
    && HolderPhase(s.calls[t].phase, x, own) && HolderSeen(s, t, s.calls[t].phase, x)
  }

  lemma HolderAttaches(s: State, s': State, t: Id, c: Choice, x: Attachment)
    requires t in s.calls && s.calls[t].phase == Attaching(x.out, x.from) && s.calls[t].was == x.was
    requires HolderSeen(s, t, s.calls[t].phase, x)
    requires PhaseOk(s, t, s.calls[t].phase, x.was) && Ready(s, t, s.calls[t].phase)
    requires StepAttaching(s, t, c, x.out, x.from) == Some(s')
    ensures HolderTracked(s', t, x, [c])
  {
  }

  lemma HolderSubscribes(s: State, s': State, t: Id, c: Choice, x: Attachment, h: Id)
    requires t in s.calls && s.calls[t].phase == Viewed(x.out, x.from, h) && s.calls[t].was == x.was
    requires HolderSeen(s, t, s.calls[t].phase, x) && x.kind == View
    requires PhaseOk(s, t, s.calls[t].phase, x.was) && Ready(s, t, s.calls[t].phase)
    requires StepViewed(s, t, c, x.out, x.from, h) == Some(s')
    ensures t in s'.calls && s'.calls[t].was == x.was && HolderSeen(s', t, s'.calls[t].phase, x)
    ensures match c
            case Fails(status) => status != Ok && s'.calls[t].phase == Unviewing(x.out, h, status)
            case Gives(_) => s'.calls[t].phase == Attached(x.out, x.from, h)
  {
  }

  lemma HolderCopies(s: State, s': State, t: Id, c: Choice, x: Attachment, h: Id)
    requires t in s.calls && s.calls[t].phase == Attached(x.out, x.from, h) && s.calls[t].was == x.was
    requires HolderSeen(s, t, s.calls[t].phase, x) && Ready(s, t, s.calls[t].phase)
    requires StepFactory(s, t, c) == Some(s')
    ensures t in s'.calls && s'.calls[t].was == x.was && s'.calls[t].phase == Swapping(x.out, Store(x.out, h))
    ensures HolderSeen(s', t, s'.calls[t].phase, x)
  {
  }

  /** From the swap on the handle waits unchanged until it is stored. */
  lemma HolderCommits(s: State, t: Id, x: Attachment, h: Id)
    requires t in s.calls && Committed(s.calls[t].phase) && ThenOf(s.calls[t].phase) == Store(x.out, h)
    requires HolderSeen(s, t, s.calls[t].phase, x) && Ready(s, t, s.calls[t].phase)
    ensures var u := StepOwner(s, t);
      && t in u.calls && u.calls[t].was == s.calls[t].was && AttachedPhase(u.calls[t].phase, x, 1, h)
      && HolderSeen(u, t, u.calls[t].phase, x)
  {
  }

  predicate HolderNext(a: Phase, b: Phase, x: Attachment, c: Choice) {
    match a
    case Viewed(_, _, h) =>
      (match c
       case Fails(status) => status != Ok && b == Unviewing(x.out, h, status)
       case Gives(_) => b == Attached(x.out, x.from, h))
    case Unviewing(_, _, status) => b == Done(status)
    case Attached(_, _, h) => b == Swapping(x.out, Store(x.out, h))
    case Done(_) => false
    case _ => ThenOf(a).Store? && AttachedPhase(b, x, 1, ThenOf(a).h)
  }

  lemma HolderPhaseNext(a: Phase, b: Phase, x: Attachment, own: seq<Choice>, c: Choice)
    requires own != [] && HolderPhase(a, x, own) && HolderNext(a, b, x, c)
    ensures HolderPhase(b, x, own + [c])
  {
    assert (own + [c])[0] == own[0];
    assert if |own| >= 2 then (own + [c])[1] == own[1] else (own + [c])[1] == c;
  }

  lemma HolderUnviews(s: State, s': State, t: Id, c: Choice, x: Attachment, h: Id, status: Status)
    requires t in s.calls && s.calls[t].phase == Unviewing(x.out, h, status) && s.calls[t].was == x.was
    requires Ready(s, t, s.calls[t].phase) && Advance(s, t, c) == Some(s')
    ensures t in s'.calls && s'.calls[t].was == x.was && s'.calls[t].phase == Done(status)
  {
  }

  /** One step of the call itself, once it has got an answer. */
  lemma HolderGoesOn(s: State, s': State, t: Id, c: Choice, x: Attachment)
    requires t in s.calls && s.calls[t].was == x.was && HolderSeen(s, t, s.calls[t].phase, x)
    requires var ph := s.calls[t].phase;
      match ph
      case Viewed(out, from, _) => out == x.out && from == x.from && x.kind == View
      case Unviewing(out, _, _) => out == x.out
      case Attached(out, from, _) => out == x.out && from == x.from
      case Done(_) => true
      case _ => Committed(ph) && ThenOf(ph).Store? && ThenOf(ph).out == x.out
    requires PhaseOk(s, t, s.calls[t].phase, x.was) && Ready(s, t, s.calls[t].phase) && Advance(s, t, c) == Some(s')
    ensures t in s'.calls && s'.calls[t].was == x.was && HolderNext(s.calls[t].phase, s'.calls[t].phase, x, c)
    ensures HolderSeen(s', t, s'.calls[t].phase, x)
  {
    var ph := s.calls[t].phase;
    if ph.Viewed? {
      HolderSubscribes(s, s', t, c, x, ph.h);
    } else if ph.Unviewing? {
      HolderUnviews(s, s', t, c, x, ph.h, ph.status);
    } else if ph.Attached? {
      HolderCopies(s, s', t, c, x, ph.h);
    } else if !ph.Done? {
      HolderCommits(s, t, x, ThenOf(ph).h);
    }
  }

  lemma HolderStep(s: State, s': State, t: Id, c: Choice, x: Attachment, own: seq<Choice>)
    requires HolderTracked(s, t, x, own) && PhaseOk(s, t, s.calls[t].phase, x.was) && Ready(s, t, s.calls[t].phase)
    requires Advance(s, t, c) == Some(s')
    ensures HolderTracked(s', t, x, own + [c])
  {
    if own == [] {
      HolderAttaches(s, s', t, c, x);
      assert own + [c] == [c];
    } else {
      HolderGoesOn(s, s', t, c, x);
      HolderPhaseNext(s.calls[t].phase, s'.calls[t].phase, x, own, c);
    }
  }

  lemma SeenStays(s: State, s': State, t: Id, ph: Phase, x: Attachment)
    requires HolderSeen(s, t, ph, x)
    requires ph.Attaching? || ph.Viewed? || ph.Attached? ==> ObjectSame(s, s', x.out) && ObjectSame(s, s', x.from)
    requires ph.Attached? || ThenOf(ph).Store? ==>
               var h := Carried(ph).value; h in s'.handles && s'.handles[h] == s.handles[h]
    ensures HolderSeen(s', t, ph, x)
  {
  }

  lemma AttachingStays(s: State, a: Action, s': State, t: Id, x: Attachment)
    requires Inv(s) && Does(s, a, s') && a.t != t && t in s.calls && HolderSeen(s, t, s.calls[t].phase, x)
    requires var ph := s.calls[t].phase;
      (ph.Attaching? || ph.Viewed? || ph.Attached?) && ph.out == x.out && ph.from == x.from
    ensures HolderSeen(s', t, s.calls[t].phase, x)
  {
    var ph := s.calls[t].phase;
    var h := if ph.Attached? then Some(ph.h) else None;
    OthersLeave(s, a, s', t, x.out, h);
    OthersLeave(s, a, s', t, x.from, h);
    SeenStays(s, s', t, ph, x);
  }

  lemma StoringStays(s: State, a: Action, s': State, t: Id, x: Attachment)
    requires Inv(s) && Does(s, a, s') && a.t != t && t in s.calls && HolderSeen(s, t, s.calls[t].phase, x)
    requires Committed(s.calls[t].phase) && ThenOf(s.calls[t].phase).Store?
    ensures HolderSeen(s', t, s.calls[t].phase, x)
  {
    var ph := s.calls[t].phase;
    Facts(s, t);
    OthersLeave(s, a, s', t, ThenOf(ph).out, Some(ThenOf(ph).h));
    SeenStays(s, s', t, ph, x);
  }

  lemma HolderCase(ph: Phase, x: Attachment, own: seq<Choice>)
    requires HolderPhase(ph, x, own)
    ensures ph.Attaching? || ph.Viewed? || ph.Attached? ==> ph.out == x.out && ph.from == x.from
    ensures ph.Attaching? || ph.Viewed? || ph.Attached? || ph.Unviewing? || Committed(ph)
    ensures Committed(ph) && !ph.Done? ==> ThenOf(ph).Store?
  {
  }

  /** One step of another thread. */
  lemma HolderStays(s: State, a: Action, s': State, t: Id, x: Attachment, own: seq<Choice>)
    requires Inv(s) && Does(s, a, s') && a.t != t && HolderTracked(s, t, x, own)
    ensures HolderTracked(s', t, x, own)
  {
    var ph := s.calls[t].phase;
    OthersKeepCall(s, a, s', t);
    HolderCase(ph, x, own);
    if ph.Attaching? || ph.Viewed? || ph.Attached? {
      AttachingStays(s, a, s', t, x);
    } else if Committed(ph) && !ph.Done? {
      StoringStays(s, a, s', t, x);
    }
  }

  lemma HolderMore(s: State, a: Action, s': State, t: Id, x: Attachment, own: seq<Choice>)
    requires Inv(s) && Does(s, a, s') && a != Returns(t) && HolderTracked(s, t, x, own)
    ensures HolderTracked(s', t, x, own + Answer(a, t))
  {
    if a.t != t {
      HolderStays(s, a, s', t, x, own);
      assert own + [] == own;
    } else {
      Facts(s, t);
      HolderStep(s, s', t, a.c, x, own);
    }
  }

  lemma {:induction false} HolderOnTrack(s: State, actions: seq<Action>, trace: seq<State>, u: State, t: Id,
                                         x: Attachment, own: seq<Choice>)
    requires Inv(s) && Run(s, actions, trace, u) && Silent(actions, t) && HolderTracked(s, t, x, own)
    ensures HolderTracked(u, t, x, own + Own(actions, t))
    decreases |actions|
  {
    if actions == [] {
      assert own + [] == own;
    } else {
      SilentTail(actions, t);
      StepKeeps(s, actions[0], trace[0]);
      HolderMore(s, actions[0], trace[0], t, x, own);
      HolderOnTrack(trace[0], actions[1..], trace[1..], u, t, x, own + Answer(actions[0], t));
      OwnCons(actions, t, own);
    }
  }

  function AttachmentOf(s: State, out: Id, from: Id): Attachment
    requires out in s.objects && s.objects[out].kind.Holder? && Member(out) in s.slots && Member(from) in s.slots
  {
    Attachment(out, from, s.objects[out].kind.of, s.slots[Member(from)], ContentsOf(s, out))
  }

  lemma HolderBegins(s: State, t: Id, out: Id, from: Id)
    requires MayBegin(s, t, CreateHolder(out, from)) && forall o :: o in s.objects ==> Member(o) in s.slots
    ensures HolderTracked(Begin(s, t, CreateHolder(out, from)), t, AttachmentOf(s, out, from), [])
  {
  }

  lemma HolderTracks(s: State, t: Id, out: Id, from: Id, actions: seq<Action>, trace: seq<State>, before: State,
                     c: Choice, u: State)
    requires Inv(s) && MayBegin(s, t, CreateHolder(out, from)) && forall o :: o in s.objects ==> Member(o) in s.slots
    requires Completes(s, t, CreateHolder(out, from), actions, trace, before, c, u)
    ensures Inv(before) && Does(before, Advances(t, c), u)
    ensures HolderTracked(before, t, AttachmentOf(s, out, from), Own(actions, t))
    ensures HolderTracked(u, t, AttachmentOf(s, out, from), AnswersTo(actions, t, c))
  {
    var b, x := CreateHolder(out, from), AttachmentOf(s, out, from);
    FactoryBegins(s, t, b);
    LastStep(s, t, b, actions, trace, before, c, u);
    HolderBegins(s, t, out, from);
    HolderOnTrack(Begin(s, t, b), actions, trace, before, t, x, []);
    assert [] + Own(actions, t) == Own(actions, t);
    HolderMore(before, Advances(t, c), u, t, x, Own(actions, t));
  }

  /** What such a factory returned: busy exactly for an occupied output, invalid for a consumer of an empty
      Farm, else the status of the C call that failed; and otherwise success, with the output holding the
      Farm it was created from and the handle it was given, of its kind and bound to that Farm. */
  ghost predicate HolderDelivered(u: State, x: Attachment, own: seq<Choice>, status: Status)
    requires own != []
  {
    if x.was.value.Some? then status == Busy && Holds(u, x.out, x.was)
    else if x.kind == View && x.farm.None? then status == Invalid && Holds(u, x.out, x.was)
    else if own[0].Fails? then status == own[0].status && status != Ok && Holds(u, x.out, x.was)
    else if x.kind == View && |own| >= 2 && own[1].Fails? then
      status == own[1].status && status != Ok && Holds(u, x.out, x.was)
    else
      && status == Ok && Holds(u, x.out, Contents(x.farm, Some(own[0].id)))
      && own[0].id in u.handles && u.handles[own[0].id] == Handle(x.kind, x.farm, ByObject(x.out))
  }

  lemma StoreEnds(x: Attachment, before: State, u: State, t: Id, c: Choice, h: Id)
    requires t in before.calls && before.calls[t].phase == Continuing(Store(x.out, h)) && Member(x.out) in before.slots
    requires PhaseOk(before, t, before.calls[t].phase, before.calls[t].was)
    requires HolderSeen(before, t, before.calls[t].phase, x)
    requires Ready(before, t, before.calls[t].phase) && Advance(before, t, c) == Some(u)
    ensures Holds(u, x.out, Contents(x.farm, Some(h)))
    ensures h in u.handles && u.handles[h] == Handle(x.kind, x.farm, ByObject(x.out))
  {
  }

  /** The status with which it ends, and the phase from which it ends well. */
  lemma HolderBeforeEnd(a: Phase, b: Phase, x: Attachment, own: seq<Choice>, c: Choice)
    requires HolderPhase(a, x, own) && Follows(a, b) && HolderPhase(b, x, own + [c]) && b.Done?
    ensures var all := own + [c];
      if x.was.value.Some? then b.status == Busy
      else if x.kind == View && x.farm.None? then b.status == Invalid
      else if all[0].Fails? then b.status == all[0].status != Ok
      else if x.kind == View && |all| >= 2 && all[1].Fails? then b.status == all[1].status != Ok
      else b.status == Ok && a == Continuing(Store(x.out, all[0].id))
  {
    assert own != [] ==> (own + [c])[0] == own[0];
    assert |own| >= 2 ==> (own + [c])[1] == own[1];
  }

  lemma HolderEnds(before: State, u: State, t: Id, c: Choice, x: Attachment, own: seq<Choice>)
    requires Inv(before) && Does(before, Advances(t, c), u) && HolderTracked(before, t, x, own)
    requires HolderTracked(u, t, x, own + [c]) && u.calls[t].phase.Done?
    requires u.calls[t].phase.status != Ok ==> Holds(u, x.out, x.was)
    ensures HolderDelivered(u, x, own + [c], u.calls[t].phase.status)
  {
    assert Progresses(before, u, t);
    HolderBeforeEnd(before.calls[t].phase, u.calls[t].phase, x, own, c);
    if u.calls[t].phase.status == Ok {
      Facts(before, t);
      assert ObjectOk(before, x.out);
      StoreEnds(x, before, u, t, c, (own + [c])[0].id);
    }
  }

  /** For every answer of the C calls and whatever other threads do meanwhile. */
  lemma HolderDelivers(s: State, t: Id, out: Id, from: Id, actions: seq<Action>, trace: seq<State>, before: State,
                       c: Choice, u: State)
    requires Reachable(s) && MayBegin(s, t, CreateHolder(out, from))
    requires forall o :: o in s.objects ==> Member(o) in s.slots
    requires Completes(s, t, CreateHolder(out, from), actions, trace, before, c, u)
    ensures HolderDelivered(u, AttachmentOf(s, out, from), AnswersTo(actions, t, c), u.calls[t].phase.status)
  {
    ReachableInv(s);
    HolderTracks(s, t, out, from, actions, trace, before, c, u);
    if u.calls[t].phase.status != Ok {
      FailureLeavesOutput(s, t, CreateHolder(out, from), actions, trace, before, c, u);
    }
    HolderEnds(before, u, t, c, AttachmentOf(s, out, from), Own(actions, t));
  }

  // Default construction and destruction.

  /** A default-constructed wrapper is empty. */
  lemma DefaultDelivers(s: State, t: Id, o: Id, kind: WrapperKind)
    requires MayBegin(s, t, Default(o, kind)) && forall q :: q in s.objects ==> Member(q) in s.slots
    ensures var u := Begin(s, t, Default(o, kind));
      && Holds(u, o, Contents(None, None)) && u.objects[o].kind == kind
      && u.calls == s.calls && forall q :: q in s.objects ==> ObjectSame(s, u, q)
  {
  }

  /** A destructor on its way to dropping the wrapper. */
  predicate Destructing(ph: Phase, o: Id) {
    ph == Resetting(o, None) || ph == Unsubscribed(o, None) || ph == Dropping(Member(o), End)
  }

  /** Some step of the run is `t`'s and takes `o` and its `farm_ref` away. */
  ghost predicate Removes(s: State, actions: seq<Action>, trace: seq<State>, t: Id, o: Id)
    decreases |actions|
  {
    && actions != [] && |trace| == |actions|
    && (RemovesNow(s, actions[0], trace[0], t, o) || Removes(trace[0], actions[1..], trace[1..], t, o))
  }

  predicate RemovesNow(s: State, a: Action, s': State, t: Id, o: Id) {
    a.Advances? && a.t == t && o in s.objects && o !in s'.objects && Member(o) !in s'.slots
  }

  lemma DestructStep(s: State, s': State, t: Id, c: Choice, o: Id)
    requires Inv(s) && Does(s, Advances(t, c), s') && Destructing(s.calls[t].phase, o)
    ensures t in s'.calls && !s'.calls[t].phase.Done?
    ensures Destructing(s'.calls[t].phase, o) || (o in s.objects && o !in s'.objects && Member(o) !in s'.slots)
  {
    Facts(s, t);
    assert Progresses(s, s', t);
    if s.calls[t].phase.Dropping? {
      DropRemoves(s, t, o);
    }
  }

  lemma DropRemoves(s: State, t: Id, o: Id)
    requires t in s.calls && Ready(s, t, Dropping(Member(o), End))
    ensures var u := StepDropping(s, t, Member(o), End); o !in u.objects && Member(o) !in u.slots
  {
  }

  lemma DestructMore(s: State, a: Action, s': State, t: Id, o: Id)
    requires Inv(s) && Does(s, a, s') && a != Returns(t) && t in s.calls && Destructing(s.calls[t].phase, o)
    ensures t in s'.calls && !s'.calls[t].phase.Done?
    ensures Destructing(s'.calls[t].phase, o) || RemovesNow(s, a, s', t, o)
  {
    if a.t == t {
      DestructStep(s, s', t, a.c, o);
    } else {
      OthersKeepCall(s, a, s', t);
    }
  }

  /** A destructor that has completed has, in one of its steps, removed the wrapper and its `farm_ref`. */
  lemma {:induction false} DestructRemoves(s: State, actions: seq<Action>, trace: seq<State>, u: State, t: Id, o: Id)
    requires Inv(s) && Run(s, actions, trace, u) && Silent(actions, t)
    requires t in s.calls && Destructing(s.calls[t].phase, o) && t in u.calls && u.calls[t].phase.Done?
    ensures Removes(s, actions, trace, t, o)
    decreases |actions|
  {
    SilentTail(actions, t);
    StepKeeps(s, actions[0], trace[0]);
    DestructMore(s, actions[0], trace[0], t, o);
    if Destructing(trace[0].calls[t].phase, o) {
      DestructRemoves(trace[0], actions[1..], trace[1..], u, t, o);
    }
  }

  lemma DestructBegins(s: State, t: Id, o: Id)
    requires MayBegin(s, t, Destruct(o)) && forall q :: q in s.objects ==> Member(q) in s.slots
    ensures var u := Begin(s, t, Destruct(o)); t in u.calls && Destructing(u.calls[t].phase, o)
  {
  }

  /** Whatever other threads do meanwhile. */
  lemma DestructDelivers(s: State, t: Id, o: Id, actions: seq<Action>, trace: seq<State>, u: State)
    requires Reachable(s) && MayBegin(s, t, Destruct(o)) && forall q :: q in s.objects ==> Member(q) in s.slots
    requires Run(Begin(s, t, Destruct(o)), actions, trace, u) && Silent(actions, t)
    requires t in u.calls && u.calls[t].phase.Done?
    ensures Removes(Begin(s, t, Destruct(o)), actions, trace, t, o)
  {
    ReachableInv(s);
    BeginKeeps(s, t, Destruct(o));
    DestructBegins(s, t, o);
    DestructRemoves(Begin(s, t, Destruct(o)), actions, trace, u, t, o);
  }

  // How handles are returned.

  /** `h` is gone after the step. */
  predicate Gone(s: State, s': State, h: Id) {
    h in s.handles && h !in s'.handles
  }

  /** A view is unsubscribed before it is destroyed; the others are still bound to their Farm. */
  predicate ReturnedWell(s: State, h: Id)
    requires h in s.handles
  {
    s.handles[h].kind == View <==> s.handles[h].farm.None?
  }

  lemma FactoryReturns(s: State, u: Id, c: Choice, h: Id)
    requires u in s.calls && Factory(s.calls[u].phase) && Ready(s, u, s.calls[u].phase)
    requires PhaseOk(s, u, s.calls[u].phase, s.calls[u].was) && StepFactory(s, u, c).Some?
    requires Gone(s, StepFactory(s, u, c).value, h)
    ensures ReturnedWell(s, h)
  {
    var ph := s.calls[u].phase;
    if ph.Attaching? {
      AttachLeaves(s, u, c, ph.out, ph.from, 0, Some(h));
    }
  }

  lemma OwnerReturns(s: State, u: Id, h: Id)
    requires u in s.calls && !Factory(s.calls[u].phase) && !s.calls[u].phase.Done?
    requires Ready(s, u, s.calls[u].phase) && PhaseOk(s, u, s.calls[u].phase, s.calls[u].was) && ObjectsOk(s)
    requires Gone(s, StepOwner(s, u), h)
    ensures ReturnedWell(s, h)
  {
    match s.calls[u].phase
    case Resetting(q, next) =>
      assert ObjectOk(s, q);
    case Unsubscribed(q, next) =>
      assert ObjectOk(s, q);
    case _ =>
  }

  lemma StepReturns(s: State, a: Action, s': State, h: Id)
    requires Inv(s) && Does(s, a, s') && Gone(s, s', h)
    ensures ReturnedWell(s, h)
  {
    if a.Advances? {
      Facts(s, a.t);
      if Factory(s.calls[a.t].phase) {
        FactoryReturns(s, a.t, a.c, h);
      } else {
        OwnerReturns(s, a.t, h);
      }
    } else if a.Begins? {
      BeginHandles(s, a.t, a.b);
    }
  }

  lemma BeginHandles(s: State, t: Id, b: Start)
    requires MayBegin(s, t, b) && forall q :: q in s.objects ==> Member(q) in s.slots
    ensures Begin(s, t, b).handles == s.handles
  {
  }

  /** Whenever a handle is given back, a view is no longer subscribed, and a token or park still belongs to
      a Farm, which is open. */
  lemma HandlesReturned(s: State, a: Action, s': State, h: Id)
    requires Reachable(s) && Does(s, a, s') && Gone(s, s', h)
    ensures ReturnedWell(s, h)
    ensures match s.handles[h].farm case None => true case Some(f) => f in s.farms && s.farms[f].destroys == 0
  {
    ReachableInv(s);
    StepReturns(s, a, s', h);
    if s.handles[h].farm.Some? {
      HandleRetainsFarm(s, h, s.handles[h].farm.value);
      ReferencesExact(s, s.handles[h].farm.value);
    }
  }
}
