/** Steps that obtain, bind, hand over and return handles keep the invariant. */
module OwnershipHandles {
  import opened Options
  import opened Ownership
  import opened OwnershipInvariant
  import opened OwnershipSteps

  /** What a step still has to show about its own call, objects and handles. */
  ghost predicate Own(s: State, s': State, t: Id) {
    && t in s.calls && t in s'.calls
    && Frame(s, s', t, Exclusive(s.calls[t].phase))
    && PhaseOk(s', t, s'.calls[t].phase, s'.calls[t].was)
    && (forall o :: o in Exclusive(s.calls[t].phase) ==> OwnObjectOk(s', t, o))
    && (forall h :: OwnHandleOk(s', t, Exclusive(s.calls[t].phase), h))
  }

  ghost predicate Quiet(s: State, s': State, t: Id) {
    && Narrowed(s, s', t)
    && s'.slots == s.slots && s'.references == s.references && s'.farms == s.farms
    && s'.objects.Keys == s.objects.Keys
    && !HasTemp(t, s'.calls[t].phase) && !HasTemp(t, s.calls[t].phase)
    && Charge(s'.calls[t].phase) == None && Charge(s.calls[t].phase) == None
  }

  /** No reference moves, so what is left to show is about this call, its objects and its handles. */
  lemma HandleStepKeeps(s: State, s': State, t: Id)
    requires Inv(s) && Own(s, s', t) && Quiet(s, s', t)
    ensures Inv(s')
  {
    SameReferences(s, s', t);
    Reassemble(s, s', t);
  }

  lemma SetFrame(s: State, t: Id, h: Id, kind: HandleKind, farm: Option<Id>, w: Owner, ph: Phase, touched: set<Id>)
    requires t in s.calls && !Outside(t, touched, w)
    requires h in s.handles ==> !Outside(t, touched, s.handles[h].owner)
    ensures Frame(s, HandleSet(s, t, h, kind, farm, w, ph), t, touched)
  {
  }

  /** No reference moves and only touched objects and own handles change. */
  lemma QuietFrame(s: State, s': State, t: Id, touched: set<Id>)
    requires t in s.calls && t in s'.calls && s'.calls == s.calls[t := s'.calls[t]]
    requires s'.slots == s.slots && s'.references == s.references && s'.farms == s.farms
    requires forall o :: o !in touched ==> (o in s'.objects <==> o in s.objects)
    requires forall o :: o in s.objects && o !in touched ==> s'.objects[o] == s.objects[o]
    requires HandlesSame(s, s', t, touched)
    ensures Frame(s, s', t, touched)
  {
  }

  lemma ReturnFrame(s: State, t: Id, o: Id, h: Id, ph: Phase, touched: set<Id>)
    requires t in s.calls && o in s.objects && o in touched && h in s.handles && s.handles[h].owner == ByObject(o)
    ensures Frame(s, HandleReturned(s, t, o, h, ph), t, touched)
  {
    var s' := HandleReturned(s, t, o, h, ph);
    forall g ensures HandleSame(s, s', t, touched, g) {}
    QuietFrame(s, s', t, touched);
  }

  lemma UnviewFrame(s: State, t: Id, h: Id, status: Status, touched: set<Id>)
    requires t in s.calls && h in s.handles && s.handles[h].owner == ByCall(t)
    ensures Frame(s, ViewDropped(s, t, h, status), t, touched)
  {
    var s' := ViewDropped(s, t, h, status);
    forall g ensures HandleSame(s, s', t, touched, g) {}
    QuietFrame(s, s', t, touched);
  }

  lemma StoreFrame(s: State, t: Id, out: Id, h: Id)
    requires t in s.calls && out in s.objects && h in s.handles && s.handles[h].owner == ByCall(t)
    ensures Frame(s, Stored(s, t, out, h), t, {out})
  {
    var s' := Stored(s, t, out, h);
    forall g ensures HandleSame(s, s', t, {out}, g) {}
    QuietFrame(s, s', t, {out});
  }

  lemma TransferFrame(s: State, t: Id, dst: Id, src: Id, h: Id)
    requires t in s.calls && dst in s.objects && src in s.objects
    requires h in s.handles && s.handles[h].owner == ByObject(src)
    ensures Frame(s, Transferred(s, t, dst, src, h), t, {dst, src})
  {
    var s' := Transferred(s, t, dst, src, h);
    forall g ensures HandleSame(s, s', t, {dst, src}, g) {}
    QuietFrame(s, s', t, {dst, src});
  }

  /** A handle of the output's kind that the call has obtained, bound to `farm` if that is given. */
  function Obtained(s: State, t: Id, out: Id, h: Id, farm: Option<Id>, ph: Phase): State
    requires t in s.calls && out in s.objects && s.objects[out].kind.Holder?
  {
    HandleSet(s, t, h, s.objects[out].kind.of, farm, ByCall(t), ph)
  }

  /** A factory's handle is obtained now, or its view has just been subscribed. */
  ghost predicate Obtains(s: State, t: Id, out: Id, from: Id, h: Id, farm: Option<Id>, ph: Phase) {
    && t in s.calls && out in s.objects && s.objects[out].kind.Holder? && s.objects[out].value.None?
    && Member(from) in s.slots
    && s.calls[t].phase == (if h in s.handles then Viewed(out, from, h) else Attaching(out, from))
    && if farm.None?
       then ph == Viewed(out, from, h) && s.objects[out].kind == Holder(View) && s.slots[Member(from)].Some?
       else ph == Attached(out, from, h) && farm == s.slots[Member(from)]
  }

  lemma ObtainedOwn(s: State, t: Id, out: Id, from: Id, h: Id, farm: Option<Id>, ph: Phase)
    requires Obtains(s, t, out, from, h, farm, ph) && HandlesOk(s) && ObjectOk(s, out)
    requires PhaseOk(s, t, s.calls[t].phase, s.calls[t].was)
    ensures Own(s, Obtained(s, t, out, h, farm, ph), t)
  {
    var s' := Obtained(s, t, out, h, farm, ph);
    SetFrame(s, t, h, s.objects[out].kind.of, farm, ByCall(t), ph, {out});
    assert OwnObjectOk(s', t, out);
    forall g ensures OwnHandleOk(s', t, {out}, g) {
      assert g in s.handles ==> HandleOk(s, g);
    }
  }

  lemma ObtainedQuiet(s: State, t: Id, out: Id, from: Id, h: Id, farm: Option<Id>, ph: Phase)
    requires Obtains(s, t, out, from, h, farm, ph)
    ensures Quiet(s, Obtained(s, t, out, h, farm, ph), t)
  {
  }

  lemma ObtainedKeeps(s: State, t: Id, out: Id, from: Id, h: Id, farm: Option<Id>, ph: Phase)
    requires Inv(s) && Obtains(s, t, out, from, h, farm, ph)
    ensures Inv(Obtained(s, t, out, h, farm, ph))
  {
    Facts(s, t);
    assert ObjectOk(s, out);
    ObtainedOwn(s, t, out, from, h, farm, ph);
    ObtainedQuiet(s, t, out, from, h, farm, ph);
    HandleStepKeeps(s, Obtained(s, t, out, h, farm, ph), t);
  }

  lemma UnviewOwn(s: State, t: Id, out: Id, h: Id, status: Status)
    requires t in s.calls && s.calls[t].phase == Unviewing(out, h, status) && HandlesOk(s)
    requires PhaseOk(s, t, s.calls[t].phase, s.calls[t].was) && ObjectOk(s, out)
    ensures Own(s, ViewDropped(s, t, h, status), t)
  {
    var s' := ViewDropped(s, t, h, status);
    UnviewFrame(s, t, h, status, {out});
    assert OwnObjectOk(s', t, out);
    forall g ensures OwnHandleOk(s', t, {out}, g) {
      assert g in s.handles ==> HandleOk(s, g);
    }
  }

  lemma UnviewQuiet(s: State, t: Id, out: Id, h: Id, status: Status)
    requires t in s.calls && s.calls[t].phase == Unviewing(out, h, status)
    ensures Quiet(s, ViewDropped(s, t, h, status), t)
  {
  }

  lemma UnviewKeeps(s: State, t: Id, out: Id, h: Id, status: Status)
    requires Inv(s) && t in s.calls && s.calls[t].phase == Unviewing(out, h, status)
    ensures Inv(ViewDropped(s, t, h, status))
  {
    Facts(s, t);
    assert ObjectOk(s, out);
    UnviewOwn(s, t, out, h, status);
    UnviewQuiet(s, t, out, h, status);
    HandleStepKeeps(s, ViewDropped(s, t, h, status), t);
  }

  /** A reset's view is no longer bound to its Farm. */
  function Unbound(s: State, t: Id, o: Id, next: Option<Id>, h: Id): State
    requires t in s.calls && h in s.handles
  {
    HandleSet(s, t, h, View, None, s.handles[h].owner, Unsubscribed(o, next))
  }

  lemma UnboundObjects(s: State, t: Id, o: Id, next: Option<Id>, h: Id, q: Id)
    requires t in s.calls && s.calls[t].phase == Resetting(o, next) && h in s.handles && s.handles[h].kind == View
    requires q in Exclusive(s.calls[t].phase) && q in s.objects && ObjectOk(s, q)
    ensures OwnObjectOk(Unbound(s, t, o, next, h), t, q)
  {
  }

  lemma UnboundPhase(s: State, t: Id, o: Id, next: Option<Id>, h: Id, was: Contents)
    requires t in s.calls && PhaseOk(s, t, Resetting(o, next), was) && ObjectOk(s, o)
    requires s.objects[o].value == Some(h) && h in s.handles && s.handles[h].kind == View
    requires next.Some? ==> ObjectOk(s, next.value)
    ensures PhaseOk(Unbound(s, t, o, next, h), t, Unsubscribed(o, next), was)
  {
  }

  lemma UnsubscribeOwn(s: State, t: Id, o: Id, next: Option<Id>, h: Id)
    requires t in s.calls && s.calls[t].phase == Resetting(o, next) && HandlesOk(s)
    requires PhaseOk(s, t, s.calls[t].phase, s.calls[t].was) && s.objects[o].value == Some(h)
    requires h in s.handles && s.handles[h].kind == View && ObjectOk(s, o)
    requires next.Some? ==> ObjectOk(s, next.value)
    ensures Own(s, Unbound(s, t, o, next, h), t) && Quiet(s, Unbound(s, t, o, next, h), t)
  {
    var s' := Unbound(s, t, o, next, h);
    var touched := Exclusive(s.calls[t].phase);
    SetFrame(s, t, h, View, None, s.handles[h].owner, Unsubscribed(o, next), touched);
    UnboundPhase(s, t, o, next, h, s.calls[t].was);
    forall q | q in touched ensures OwnObjectOk(s', t, q) {
      UnboundObjects(s, t, o, next, h, q);
    }
    forall g ensures OwnHandleOk(s', t, touched, g) {
      assert g in s.handles ==> HandleOk(s, g);
    }
  }

  lemma UnsubscribeKeeps(s: State, t: Id, o: Id, next: Option<Id>, h: Id)
    requires Inv(s) && t in s.calls && s.calls[t].phase == Resetting(o, next)
    requires o in s.objects && s.objects[o].value == Some(h) && h in s.handles && s.handles[h].kind == View
    ensures Inv(Unbound(s, t, o, next, h))
  {
    Facts(s, t);
    assert ObjectOk(s, o) && (next.Some? ==> ObjectOk(s, next.value));
    UnsubscribeOwn(s, t, o, next, h);
    HandleStepKeeps(s, Unbound(s, t, o, next, h), t);
  }

  lemma ReturnPhase(s: State, t: Id, o: Id, next: Option<Id>, h: Id, was: Contents)
    requires t in s.calls && NextOk(s, o, next, was) && h in s.handles && s.handles[h].owner == ByObject(o)
    requires next.Some? ==> ObjectOk(s, next.value)
    ensures var s' := HandleReturned(s, t, o, h, AfterReset(o, next));
      && PhaseOk(s', t, AfterReset(o, next), was)
      && (next.Some? ==> Settled(s', next.value) && ObjectOk(s', next.value))
  {
  }

  lemma ReturnHandles(s: State, t: Id, o: Id, next: Option<Id>, h: Id, g: Id)
    requires t in s.calls && s.calls[t].phase in {Resetting(o, next), Unsubscribed(o, next)} && HandlesOk(s)
    requires o in s.objects && s.objects[o].value == Some(h)
    ensures OwnHandleOk(HandleReturned(s, t, o, h, AfterReset(o, next)), t, Exclusive(s.calls[t].phase), g)
  {
    assert g in s.handles ==> HandleOk(s, g);
  }

  lemma ReturnOwn(s: State, t: Id, o: Id, next: Option<Id>, h: Id)
    requires t in s.calls && s.calls[t].phase in {Resetting(o, next), Unsubscribed(o, next)} && HandlesOk(s)
    requires NextOk(s, o, next, s.calls[t].was) && s.objects[o].value == Some(h) && ObjectOk(s, o)
    requires next.Some? ==> ObjectOk(s, next.value)
    ensures Own(s, HandleReturned(s, t, o, h, AfterReset(o, next)), t)
  {
    var s' := HandleReturned(s, t, o, h, AfterReset(o, next));
    var touched := if next.Some? then {o, next.value} else {o};
    ReturnFrame(s, t, o, h, AfterReset(o, next), touched);
    ReturnPhase(s, t, o, next, h, s.calls[t].was);
    assert OwnObjectOk(s', t, o);
    forall g ensures OwnHandleOk(s', t, touched, g) {
      ReturnHandles(s, t, o, next, h, g);
    }
  }

  lemma ReturnQuiet(s: State, t: Id, o: Id, next: Option<Id>, h: Id)
    requires t in s.calls && s.calls[t].phase in {Resetting(o, next), Unsubscribed(o, next)} && o in s.objects
    ensures Quiet(s, HandleReturned(s, t, o, h, AfterReset(o, next)), t)
  {
  }

  /** The last step of a reset that had a handle to return. */
  lemma ReturnKeeps(s: State, t: Id, o: Id, next: Option<Id>, h: Id)
    requires Inv(s) && t in s.calls && s.calls[t].phase in {Resetting(o, next), Unsubscribed(o, next)}
    requires o in s.objects && s.objects[o].value == Some(h)
    ensures Inv(HandleReturned(s, t, o, h, AfterReset(o, next)))
  {
    Facts(s, t);
    assert ObjectOk(s, o) && (next.Some? ==> ObjectOk(s, next.value));
    ReturnOwn(s, t, o, next, h);
    ReturnQuiet(s, t, o, next, h);
    HandleStepKeeps(s, HandleReturned(s, t, o, h, AfterReset(o, next)), t);
  }

  lemma StoreObject(s: State, t: Id, out: Id, h: Id)
    requires t in s.calls && s.calls[t].phase == Continuing(Store(out, h)) && out in s.objects && h in s.handles
    requires PhaseOk(s, t, s.calls[t].phase, s.calls[t].was)
    ensures OwnObjectOk(Stored(s, t, out, h), t, out)
  {
  }

  lemma StoreOwn(s: State, t: Id, out: Id, h: Id)
    requires t in s.calls && s.calls[t].phase == Continuing(Store(out, h)) && out in s.objects && h in s.handles
    requires PhaseOk(s, t, s.calls[t].phase, s.calls[t].was) && HandlesOk(s)
    ensures Own(s, Stored(s, t, out, h), t)
  {
    var s' := Stored(s, t, out, h);
    StoreFrame(s, t, out, h);
    StoreObject(s, t, out, h);
    forall g ensures OwnHandleOk(s', t, {out}, g) {
      assert g in s.handles ==> HandleOk(s, g);
    }
  }

  lemma StoreQuiet(s: State, t: Id, out: Id, h: Id)
    requires t in s.calls && s.calls[t].phase == Continuing(Store(out, h)) && out in s.objects && h in s.handles
    ensures Quiet(s, Stored(s, t, out, h), t)
  {
  }

  lemma StoreKeeps(s: State, t: Id, out: Id, h: Id)
    requires Inv(s) && t in s.calls && s.calls[t].phase == Continuing(Store(out, h))
    requires out in s.objects && h in s.handles
    ensures Inv(Stored(s, t, out, h))
  {
    Facts(s, t);
    StoreOwn(s, t, out, h);
    StoreQuiet(s, t, out, h);
    HandleStepKeeps(s, Stored(s, t, out, h), t);
  }

  lemma TransferObjects(s: State, t: Id, dst: Id, src: Id, h: Id)
    requires t in s.calls && s.calls[t].phase == Continuing(Transfer(dst, src))
    requires dst in s.objects && src in s.objects && h in s.handles && s.objects[src].value == Some(h)
    requires PhaseOk(s, t, s.calls[t].phase, s.calls[t].was) && ObjectOk(s, dst) && ObjectOk(s, src)
    ensures var s' := Transferred(s, t, dst, src, h); OwnObjectOk(s', t, dst) && OwnObjectOk(s', t, src)
  {
  }

  lemma TransferOwn(s: State, t: Id, dst: Id, src: Id, h: Id)
    requires t in s.calls && s.calls[t].phase == Continuing(Transfer(dst, src))
    requires dst in s.objects && src in s.objects && h in s.handles && s.objects[src].value == Some(h)
    requires PhaseOk(s, t, s.calls[t].phase, s.calls[t].was) && ObjectOk(s, dst) && ObjectOk(s, src) && HandlesOk(s)
    ensures Own(s, Transferred(s, t, dst, src, h), t)
  {
    var s' := Transferred(s, t, dst, src, h);
    TransferFrame(s, t, dst, src, h);
    TransferObjects(s, t, dst, src, h);
    forall g ensures OwnHandleOk(s', t, {dst, src}, g) {
      assert g in s.handles ==> HandleOk(s, g);
    }
  }

  lemma TransferQuiet(s: State, t: Id, dst: Id, src: Id, h: Id)
    requires t in s.calls && s.calls[t].phase == Continuing(Transfer(dst, src))
    requires dst in s.objects && src in s.objects && h in s.handles
    ensures Quiet(s, Transferred(s, t, dst, src, h), t)
  {
  }

  lemma TransferKeeps(s: State, t: Id, dst: Id, src: Id, h: Id)
    requires Inv(s) && t in s.calls && s.calls[t].phase == Continuing(Transfer(dst, src))
    requires dst in s.objects && src in s.objects && h in s.handles && s.objects[src].value == Some(h)
    ensures Inv(Transferred(s, t, dst, src, h))
  {
    Facts(s, t);
    assert ObjectOk(s, dst) && ObjectOk(s, src);
    TransferOwn(s, t, dst, src, h);
    TransferQuiet(s, t, dst, src, h);
    HandleStepKeeps(s, Transferred(s, t, dst, src, h), t);
  }
}
