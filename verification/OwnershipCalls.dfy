/** Every call, from its first step to its return, keeps the ownership invariant. */
module OwnershipCalls {
  import opened Options
  import opened Ownership
  import opened OwnershipInvariant
  import opened OwnershipSteps
  import opened OwnershipHandles
  import opened OwnershipReferences
  import opened OwnershipCounts

  // Every step of a call.

  lemma OpeningKeeps(s: State, t: Id, c: Choice, out: Id)
    requires Inv(s) && t in s.calls && s.calls[t].phase == Opening(out) && Ready(s, t, Opening(out))
    requires StepOpening(s, t, c, out).Some?
    ensures Inv(StepOpening(s, t, c, out).value)
  {
    Facts(s, t);
    if s.slots[Member(out)].Some? {
      FinishKeeps(s, t, Busy);
    } else if c.Fails? {
      FinishKeeps(s, t, c.status);
    } else {
      FarmMadeKeeps(s, t, out, c.id);
    }
  }

  lemma AttachingKeeps(s: State, t: Id, c: Choice, out: Id, from: Id)
    requires Inv(s) && t in s.calls && s.calls[t].phase == Attaching(out, from) && Ready(s, t, Attaching(out, from))
    requires StepAttaching(s, t, c, out, from).Some?
    ensures Inv(StepAttaching(s, t, c, out, from).value)
  {
    Facts(s, t);
    var farm, kind := s.slots[Member(from)], s.objects[out].kind.of;
    if s.objects[out].value.Some? {
      FinishKeeps(s, t, Busy);
    } else if kind == View && farm.None? {
      FinishKeeps(s, t, Invalid);
    } else if c.Fails? {
      FinishKeeps(s, t, c.status);
    } else if kind == View {
      ObtainedKeeps(s, t, out, from, c.id, None, Viewed(out, from, c.id));
    } else {
      ObtainedKeeps(s, t, out, from, c.id, farm, Attached(out, from, c.id));
    }
  }

  lemma OpenedKeeps(s: State, t: Id, c: Choice, out: Id, f: Id)
    requires Inv(s) && t in s.calls && s.calls[t].phase == Opened(out, f) && f in s.farms
    ensures Inv(if c.Fails? then Pass(s, t, Refused(out, f)) else ControlMade(s, t, out, f))
  {
    if c.Fails? {
      Facts(s, t);
      PassKeeps(s, t, Refused(out, f));
    } else {
      FirstKeeps(s, t, out, f);
    }
  }

  lemma UnviewPhase(s: State, t: Id, out: Id, from: Id, h: Id, status: Status, was: Contents)
    requires PhaseOk(s, t, Viewed(out, from, h), was) && status != Ok
    ensures PhaseOk(s, t, Unviewing(out, h, status), was)
  {
  }

  lemma SubscribeFails(s: State, t: Id, out: Id, from: Id, h: Id, status: Status)
    requires Inv(s) && t in s.calls && s.calls[t].phase == Viewed(out, from, h) && status != Ok
    ensures Inv(Pass(s, t, Unviewing(out, h, status)))
  {
    Facts(s, t);
    UnviewPhase(s, t, out, from, h, status, s.calls[t].was);
    PassKeeps(s, t, Unviewing(out, h, status));
  }

  lemma ViewedKeeps(s: State, t: Id, c: Choice, out: Id, from: Id, h: Id)
    requires Inv(s) && t in s.calls && s.calls[t].phase == Viewed(out, from, h) && Ready(s, t, Viewed(out, from, h))
    requires StepViewed(s, t, c, out, from, h).Some?
    ensures Inv(StepViewed(s, t, c, out, from, h).value)
  {
    Facts(s, t);
    if c.Fails? {
      SubscribeFails(s, t, out, from, h, c.status);
    } else {
      ObtainedKeeps(s, t, out, from, h, s.slots[Member(from)], Attached(out, from, h));
    }
  }

  lemma ResetPhase(s: State, t: Id, o: Id, next: Option<Id>, was: Contents)
    requires PhaseOk(s, t, Resetting(o, next), was) && s.objects[o].value == None
    ensures PhaseOk(s, t, AfterReset(o, next), was)
  {
  }

  lemma NothingToReset(s: State, t: Id, o: Id, next: Option<Id>)
    requires Inv(s) && t in s.calls && s.calls[t].phase == Resetting(o, next)
    requires o in s.objects && s.objects[o].value == None
    ensures Inv(Pass(s, t, AfterReset(o, next)))
  {
    Facts(s, t);
    ResetPhase(s, t, o, next, s.calls[t].was);
    PassKeeps(s, t, AfterReset(o, next));
  }

  lemma ResettingKeeps(s: State, t: Id, o: Id, next: Option<Id>)
    requires Inv(s) && t in s.calls && s.calls[t].phase == Resetting(o, next) && Ready(s, t, Resetting(o, next))
    ensures Inv(StepResetting(s, t, o, next))
  {
    Facts(s, t);
    match s.objects[o].value
    case None => NothingToReset(s, t, o, next);
    case Some(h) =>
      if s.handles[h].kind == View {
        UnsubscribeKeeps(s, t, o, next, h);
      } else {
        ReturnKeeps(s, t, o, next, h);
      }
  }

  lemma DroppingKeeps(s: State, t: Id, k: Slot, n: Then)
    requires Inv(s) && t in s.calls && s.calls[t].phase == Dropping(k, n) && Ready(s, t, Dropping(k, n))
    ensures Inv(StepDropping(s, t, k, n))
  {
    match s.slots[k]
    case None => NullDropKeeps(s, t, k, n);
    case Some(f) =>
      if s.references[f] == 1 {
        LastDropKeeps(s, t, k, f, n);
      } else {
        RefDropKeeps(s, t, k, f, n);
      }
  }

  lemma ContinuingKeeps(s: State, t: Id, n: Then)
    requires Inv(s) && t in s.calls && s.calls[t].phase == Continuing(n) && Ready(s, t, Continuing(n))
    ensures Inv(StepContinuing(s, t, n))
  {
    match n
    case End => FinishKeeps(s, t, Ok);
    case Return(_, _) => FinishKeeps(s, t, Ok);
    case Store(out, h) => StoreKeeps(s, t, out, h);
    case Transfer(dst, src) =>
      TransferEnds(s, t, dst, src);
  }

  lemma TransferEnds(s: State, t: Id, dst: Id, src: Id)
    requires Inv(s) && t in s.calls && s.calls[t].phase == Continuing(Transfer(dst, src))
    requires Ready(s, t, Continuing(Transfer(dst, src)))
    ensures Inv(StepContinuing(s, t, Transfer(dst, src)))
  {
    Facts(s, t);
    if s.objects[src].value.None? {
      FinishKeeps(s, t, Ok);
    } else {
      TransferKeeps(s, t, dst, src, s.objects[src].value.value);
    }
  }

  lemma FactoryKeeps(s: State, t: Id, c: Choice)
    requires Inv(s) && t in s.calls && Factory(s.calls[t].phase) && Ready(s, t, s.calls[t].phase)
    requires StepFactory(s, t, c).Some?
    ensures Inv(StepFactory(s, t, c).value)
  {
    match s.calls[t].phase
    case Opening(out) => OpeningKeeps(s, t, c, out);
    case Opened(out, f) => OpenedKeeps(s, t, c, out, f);
    case Refused(out, f) => RefusedKeeps(s, t, out, f);
    case Attaching(out, from) => AttachingKeeps(s, t, c, out, from);
    case Viewed(out, from, h) => ViewedKeeps(s, t, c, out, from, h);
    case Unviewing(out, h, status) => UnviewKeeps(s, t, out, h, status);
    case Attached(out, from, h) => CopyKeeps(s, t, s.slots[Member(from)].value, out, from, h);
  }

  lemma OwnerKeeps(s: State, t: Id)
    requires Inv(s) && t in s.calls && !Factory(s.calls[t].phase) && !s.calls[t].phase.Done?
    requires Ready(s, t, s.calls[t].phase)
    ensures Inv(StepOwner(s, t))
  {
    match s.calls[t].phase
    case Resetting(o, next) => ResettingKeeps(s, t, o, next);
    case Unsubscribed(o, next) => ReturnKeeps(s, t, o, next, s.objects[o].value.value);
    case Taking(dst, src) => TakeKeeps(s, t, dst, src, Transfer(dst, src));
    case Swapping(dst, n) => SwapKeeps(s, t, dst, n);
    case Dropping(k, n) => DroppingKeeps(s, t, k, n);
    case Destroying(f, n) => DestroyKeeps(s, t, f, n);
    case Deleting(f, n) => DeleteKeeps(s, t, f, n);
    case Continuing(n) => ContinuingKeeps(s, t, n);
  }

  lemma AdvanceKeeps(s: State, t: Id, c: Choice)
    requires Inv(s) && t in s.calls && Ready(s, t, s.calls[t].phase) && Advance(s, t, c).Some?
    ensures Inv(Advance(s, t, c).value)
  {
    if Factory(s.calls[t].phase) {
      FactoryKeeps(s, t, c);
    } else {
      OwnerKeeps(s, t);
    }
  }

  // Calls begin and return.

  lemma UsesLive(s: State, u: Id)
    requires SlotsOk(s) && u in s.calls && CallOk(s, u)
    ensures Exclusive(s.calls[u].phase) + Shared(s.calls[u].phase) <= s.objects.Keys
  {
    var ph := s.calls[u].phase;
    forall o | o in Shared(ph) ensures o in s.objects {
      assert SlotOk(s, Member(o));
    }
  }

  /** A call begins without touching anything yet. */
  ghost predicate Entered(s: State, s': State, t: Id) {
    && t !in s.calls && t in s'.calls && s'.calls == s.calls[t := s'.calls[t]]
    && s'.objects == s.objects && s'.slots == s.slots && s'.references == s.references
    && s'.farms == s.farms && s'.handles == s.handles
    && Usable(s, Exclusive(s'.calls[t].phase), Shared(s'.calls[t].phase))
  }

  lemma EnterTables(s: State, s': State, t: Id)
    requires Counted(s) && SlotsOk(s) && FarmsOk(s) && Entered(s, s', t)
    ensures Counted(s') && SlotsOk(s') && FarmsOk(s')
  {
    forall f | f in s'.references ensures CountOk(s', f) {
      assert CountOk(s, f);
    }
    forall k | k in s'.slots ensures SlotOk(s', k) {
      assert SlotOk(s, k);
    }
    forall f | f in s'.farms ensures FarmOk(s', f) {
      assert FarmOk(s, f);
    }
  }

  lemma EnterApart(s: State, s': State, t: Id)
    requires AllApart(s) && Entered(s, s', t)
    ensures AllApart(s')
  {
    forall u, v | u in s'.calls && v in s'.calls && u != v ensures Apart(s', u, v) {
      assert u != t && v != t ==> Apart(s, u, v);
    }
  }

  lemma EnterRest(s: State, s': State, t: Id)
    requires HandlesOk(s) && Entered(s, s', t)
    ensures Frame(s, s', t, {}) && Untouched(s, t, {})
    ensures forall h :: OwnHandleOk(s', t, {}, h)
  {
    forall h ensures OwnHandleOk(s', t, {}, h) {
      assert h in s.handles ==> HandleOk(s, h);
    }
  }

  lemma EnterKeeps(s: State, s': State, t: Id)
    requires Inv(s) && Entered(s, s', t) && CallOk(s', t)
    ensures Inv(s')
  {
    EnterTables(s, s', t);
    EnterApart(s, s', t);
    EnterRest(s, s', t);
    Assemble(s, s', t, {});
  }

  /** Nobody else is using the object, so its handle is at rest. */
  lemma UsableSettled(s: State, exclusive: set<Id>, shared: set<Id>, o: Id)
    requires Inv(s) && Usable(s, exclusive, shared) && o in exclusive
    ensures Settled(s, o) && ObjectOk(s, o)
  {
    assert Free(s, o);
    assert ObjectOk(s, o);
  }

  lemma DefaultTables(s: State, o: Id, kind: WrapperKind, t: Id)
    requires Counted(s) && SlotsOk(s) && FarmsOk(s) && o !in s.objects && MayBegin(s, t, Default(o, kind))
    requires forall q :: q in s.objects ==> Member(q) in s.slots
    ensures var s' := Begin(s, t, Default(o, kind)); Counted(s') && SlotsOk(s') && FarmsOk(s')
  {
    var s' := Begin(s, t, Default(o, kind));
    assert Member(o) in s.slots ==> SlotOk(s, Member(o));
    forall f | f in s'.references ensures CountOk(s', f) {
      OwnersPut(s.slots, Member(o), None, f);
      assert CountOk(s, f);
    }
    forall k | k in s'.slots ensures SlotOk(s', k) {
      assert k in s.slots ==> SlotOk(s, k);
    }
    forall f | f in s'.farms ensures FarmOk(s', f) {
      assert FarmOk(s, f);
    }
  }

  lemma UntouchedFresh(s: State, t: Id, touched: set<Id>, fresher: Id)
    requires SlotsOk(s) && CallsOk(s) && t !in s.calls && fresher !in s.objects
    requires Usable(s, touched - {fresher}, {})
    ensures Untouched(s, t, touched)
  {
    forall u | u in s.calls ensures touched !! Exclusive(s.calls[u].phase) + Shared(s.calls[u].phase) {
      assert CallOk(s, u);
      UsesLive(s, u);
    }
  }

  lemma DefaultRest(s: State, t: Id, o: Id, kind: WrapperKind)
    requires HandlesOk(s) && AllApart(s) && MayBegin(s, t, Default(o, kind))
    requires forall q :: q in s.objects ==> Member(q) in s.slots
    ensures Frame(s, Begin(s, t, Default(o, kind)), t, {o}) && AllApart(Begin(s, t, Default(o, kind)))
    ensures OwnObjectOk(Begin(s, t, Default(o, kind)), t, o)
    ensures forall h :: OwnHandleOk(Begin(s, t, Default(o, kind)), t, {o}, h)
  {
    var s' := Begin(s, t, Default(o, kind));
    forall h ensures OwnHandleOk(s', t, {o}, h) {
      assert h in s.handles ==> HandleOk(s, h);
    }
    forall u, v | u in s'.calls && v in s'.calls && u != v ensures Apart(s', u, v) {
      assert Apart(s, u, v);
    }
  }

  lemma DefaultKeeps(s: State, t: Id, o: Id, kind: WrapperKind)
    requires Inv(s) && MayBegin(s, t, Default(o, kind)) && forall q :: q in s.objects ==> Member(q) in s.slots
    ensures Inv(Begin(s, t, Default(o, kind)))
  {
    DefaultTables(s, o, kind, t);
    DefaultRest(s, t, o, kind);
    UntouchedFresh(s, t, {o}, o);
    Assemble(s, Begin(s, t, Default(o, kind)), t, {o});
  }

  lemma ConstructCounted(s: State, t: Id, o: Id, src: Id)
    requires Counted(s) && SlotsOk(s) && MayBegin(s, t, MoveConstruct(o, src))
    requires forall q :: q in s.objects ==> Member(q) in s.slots
    ensures Counted(Begin(s, t, MoveConstruct(o, src)))
  {
    var s' := Begin(s, t, MoveConstruct(o, src));
    var farm := s.slots[Member(src)];
    assert Member(o) in s.slots ==> SlotOk(s, Member(o));
    forall f | f in s'.references ensures CountOk(s', f) {
      OwnersPut(s.slots, Member(o), farm, f);
      OwnersPut(s.slots[Member(o) := farm], Member(src), None, f);
      assert CountOk(s, f);
    }
  }

  lemma ConstructSlots(s: State, t: Id, o: Id, src: Id)
    requires SlotsOk(s) && MayBegin(s, t, MoveConstruct(o, src))
    requires forall q :: q in s.objects ==> Member(q) in s.slots
    ensures SlotsOk(Begin(s, t, MoveConstruct(o, src)))
  {
    var s' := Begin(s, t, MoveConstruct(o, src));
    assert SlotOk(s, Member(src));
    forall k | k in s'.slots ensures SlotOk(s', k) {
      assert k in s.slots ==> SlotOk(s, k);
    }
  }

  lemma ConstructFarms(s: State, t: Id, o: Id, src: Id)
    requires FarmsOk(s) && MayBegin(s, t, MoveConstruct(o, src))
    requires forall q :: q in s.objects ==> Member(q) in s.slots
    ensures FarmsOk(Begin(s, t, MoveConstruct(o, src)))
  {
    var s' := Begin(s, t, MoveConstruct(o, src));
    forall f | f in s'.farms ensures FarmOk(s', f) {
      assert FarmOk(s, f);
    }
  }

  lemma ConstructCall(s: State, t: Id, o: Id, src: Id)
    requires MayBegin(s, t, MoveConstruct(o, src)) && forall q :: q in s.objects ==> Member(q) in s.slots
    requires Settled(s, src) && ObjectOk(s, src)
    ensures CallOk(Begin(s, t, MoveConstruct(o, src)), t)
  {
  }

  lemma ConstructOwn(s: State, t: Id, o: Id, src: Id)
    requires MayBegin(s, t, MoveConstruct(o, src)) && forall q :: q in s.objects ==> Member(q) in s.slots
    requires HandlesOk(s) && ObjectOk(s, src)
    ensures var s' := Begin(s, t, MoveConstruct(o, src));
      && (forall q :: q in {o, src} ==> OwnObjectOk(s', t, q))
      && forall h :: OwnHandleOk(s', t, {o, src}, h)
  {
    var s' := Begin(s, t, MoveConstruct(o, src));
    forall h ensures OwnHandleOk(s', t, {o, src}, h) {
      assert h in s.handles ==> HandleOk(s, h);
    }
  }

  lemma ConstructFrame(s: State, t: Id, o: Id, src: Id)
    requires MayBegin(s, t, MoveConstruct(o, src)) && forall q :: q in s.objects ==> Member(q) in s.slots
    ensures Frame(s, Begin(s, t, MoveConstruct(o, src)), t, {o, src})
  {
  }

  lemma ConstructApart(s: State, t: Id, o: Id, src: Id)
    requires AllApart(s) && MayBegin(s, t, MoveConstruct(o, src)) && forall q :: q in s.objects ==> Member(q) in s.slots
    requires Untouched(s, t, {o, src})
    ensures AllApart(Begin(s, t, MoveConstruct(o, src)))
  {
    var s' := Begin(s, t, MoveConstruct(o, src));
    forall u, v | u in s'.calls && v in s'.calls && u != v ensures Apart(s', u, v) {
      assert u != t && v != t ==> Apart(s, u, v);
    }
  }

  lemma ConstructRest(s: State, t: Id, o: Id, src: Id)
    requires MayBegin(s, t, MoveConstruct(o, src)) && forall q :: q in s.objects ==> Member(q) in s.slots
    requires SlotsOk(s) && CallsOk(s) && HandlesOk(s) && AllApart(s) && Settled(s, src) && ObjectOk(s, src)
    ensures var s' := Begin(s, t, MoveConstruct(o, src));
      && Untouched(s, t, {o, src}) && CallOk(s', t) && AllApart(s')
      && (forall q :: q in {o, src} ==> OwnObjectOk(s', t, q))
      && forall h :: OwnHandleOk(s', t, {o, src}, h)
  {
    ConstructCall(s, t, o, src);
    ConstructOwn(s, t, o, src);
    UntouchedFresh(s, t, {o, src}, o);
    ConstructApart(s, t, o, src);
  }

  lemma ConstructKeeps(s: State, t: Id, o: Id, src: Id)
    requires Inv(s) && MayBegin(s, t, MoveConstruct(o, src)) && forall q :: q in s.objects ==> Member(q) in s.slots
    ensures Inv(Begin(s, t, MoveConstruct(o, src)))
  {
    UsableSettled(s, {src}, {}, src);
    ConstructCounted(s, t, o, src);
    ConstructSlots(s, t, o, src);
    ConstructFarms(s, t, o, src);
    ConstructFrame(s, t, o, src);
    ConstructRest(s, t, o, src);
    Assemble(s, Begin(s, t, MoveConstruct(o, src)), t, {o, src});
  }

  lemma ObjectsHaveSlots(s: State)
    requires ObjectsOk(s)
    ensures forall o :: o in s.objects ==> Member(o) in s.slots
  {
    forall o | o in s.objects ensures Member(o) in s.slots {
      assert ObjectOk(s, o);
    }
  }

  lemma CreateFarmEnters(s: State, t: Id, out: Id)
    requires MayBegin(s, t, CreateFarm(out)) && forall o :: o in s.objects ==> Member(o) in s.slots
    requires Settled(s, out)
    ensures var s' := Begin(s, t, CreateFarm(out)); Entered(s, s', t) && CallOk(s', t)
  {
  }

  lemma CreateHolderEnters(s: State, t: Id, out: Id, from: Id)
    requires MayBegin(s, t, CreateHolder(out, from)) && forall o :: o in s.objects ==> Member(o) in s.slots
    requires Settled(s, out)
    ensures var s' := Begin(s, t, CreateHolder(out, from)); Entered(s, s', t) && CallOk(s', t)
  {
  }

  lemma AssignEnters(s: State, t: Id, dst: Id, src: Id)
    requires MayBegin(s, t, MoveAssign(dst, src)) && forall o :: o in s.objects ==> Member(o) in s.slots
    requires Settled(s, dst) && ObjectOk(s, dst) && Settled(s, src) && ObjectOk(s, src)
    ensures var s' := Begin(s, t, MoveAssign(dst, src)); Entered(s, s', t) && CallOk(s', t)
  {
  }

  lemma DestructEnters(s: State, t: Id, o: Id)
    requires MayBegin(s, t, Destruct(o)) && forall q :: q in s.objects ==> Member(q) in s.slots
    requires Settled(s, o) && ObjectOk(s, o)
    ensures var s' := Begin(s, t, Destruct(o)); Entered(s, s', t) && CallOk(s', t)
  {
  }

  /** The calls that begin by doing nothing. */
  lemma BeginEnters(s: State, t: Id, b: Start)
    requires Inv(s) && MayBegin(s, t, b) && forall o :: o in s.objects ==> Member(o) in s.slots
    requires !b.Default? && !b.MoveConstruct?
    ensures Entered(s, Begin(s, t, b), t) && CallOk(Begin(s, t, b), t)
  {
    match b
    case CreateFarm(out) =>
      UsableSettled(s, {out}, {}, out);
      CreateFarmEnters(s, t, out);
    case CreateHolder(out, from) =>
      UsableSettled(s, {out}, {from}, out);
      CreateHolderEnters(s, t, out, from);
    case MoveAssign(dst, src) =>
      UsableSettled(s, {dst, src}, {}, dst);
      UsableSettled(s, {dst, src}, {}, src);
      AssignEnters(s, t, dst, src);
    case Destruct(o) =>
      UsableSettled(s, {o}, {}, o);
      DestructEnters(s, t, o);
  }

  lemma BeginKeeps(s: State, t: Id, b: Start)
    requires Inv(s) && MayBegin(s, t, b) && forall o :: o in s.objects ==> Member(o) in s.slots
    ensures Inv(Begin(s, t, b))
  {
    match b
    case Default(o, kind) => DefaultKeeps(s, t, o, kind);
    case MoveConstruct(o, src) => ConstructKeeps(s, t, o, src);
    case _ =>
      BeginEnters(s, t, b);
      EnterKeeps(s, Begin(s, t, b), t);
  }

  lemma ReturnedTables(s: State, t: Id)
    requires t in s.calls && s.calls[t].phase.Done? && Counted(s) && SlotsOk(s) && FarmsOk(s)
    ensures Counted(Returned(s, t)) && SlotsOk(Returned(s, t)) && FarmsOk(Returned(s, t))
  {
    var s' := Returned(s, t);
    forall f | f in s'.references ensures CountOk(s', f) {
      assert CountOk(s, f);
    }
    forall k | k in s'.slots ensures SlotOk(s', k) {
      assert SlotOk(s, k);
    }
    forall f | f in s'.farms ensures FarmOk(s', f) {
      assert FarmOk(s, f);
    }
  }

  lemma ReturnedRest(s: State, t: Id)
    requires HandlesOk(s) && AllApart(s) && t in s.calls && s.calls[t].phase.Done?
    ensures Frame(s, Returned(s, t), t, {}) && AllApart(Returned(s, t)) && Untouched(s, t, {})
    ensures forall h :: OwnHandleOk(Returned(s, t), t, {}, h)
  {
    var s' := Returned(s, t);
    forall h ensures OwnHandleOk(s', t, {}, h) {
      assert h in s.handles ==> HandleOk(s, h);
    }
    forall u, v | u in s'.calls && v in s'.calls && u != v ensures Apart(s', u, v) {
      assert Apart(s, u, v);
    }
  }

  lemma ReturnedKeeps(s: State, t: Id)
    requires Inv(s) && t in s.calls && s.calls[t].phase.Done?
    ensures Inv(Returned(s, t))
  {
    ReturnedTables(s, t);
    ReturnedRest(s, t);
    Assemble(s, Returned(s, t), t, {});
  }
}
