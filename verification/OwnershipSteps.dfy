/** Every atomic step of every call keeps the ownership invariant. */
module OwnershipSteps {
  import opened Options
  import opened Ownership
  import opened OwnershipInvariant

  // What a step leaves alone.

  predicate Outside(t: Id, touched: set<Id>, w: Owner) {
    w != ByCall(t) && (w.ByObject? ==> w.o !in touched)
  }

  ghost predicate ObjectSame(s: State, s': State, o: Id) {
    && (o in s.objects <==> o in s'.objects)
    && (o in s.objects ==> s'.objects[o] == s.objects[o])
    && SlotSame(s, s', Member(o))
  }

  ghost predicate SlotSame(s: State, s': State, k: Slot) {
    (k in s.slots <==> k in s'.slots) && (k in s.slots ==> s'.slots[k] == s.slots[k])
  }

  ghost predicate HandleSame(s: State, s': State, t: Id, touched: set<Id>, h: Id) {
    && (h in s.handles && Outside(t, touched, s.handles[h].owner) ==> h in s'.handles && s'.handles[h] == s.handles[h])
    && (h in s'.handles && Outside(t, touched, s'.handles[h].owner) ==> h in s.handles && s'.handles[h] == s.handles[h])
  }

  ghost predicate FarmSame(s: State, s': State, t: Id, f: Id) {
    f in s.farms && s.farms[f].charge.Some? && s.farms[f].charge != Some(t) ==>
      && f in s'.farms && s'.farms[f] == s.farms[f]
      && (f in s.references <==> f in s'.references)
      && (f in s.references ==> s'.references[f] == s.references[f])
  }

  ghost predicate ObjectsSame(s: State, s': State, touched: set<Id>) {
    forall o :: o !in touched ==> ObjectSame(s, s', o)
  }

  ghost predicate TempsSame(s: State, s': State, t: Id) {
    forall u :: u != t ==> SlotSame(s, s', Temp(u))
  }

  ghost predicate HandlesSame(s: State, s': State, t: Id, touched: set<Id>) {
    forall h :: HandleSame(s, s', t, touched, h)
  }

  ghost predicate FarmsSame(s: State, s': State, t: Id) {
    forall f :: FarmSame(s, s', t, f)
  }

  ghost predicate CallSame(s: State, s': State, u: Id) {
    (u in s.calls <==> u in s'.calls) && (u in s.calls ==> s'.calls[u] == s.calls[u])
  }

  ghost predicate CallsSame(s: State, s': State, t: Id) {
    forall u :: u != t ==> CallSame(s, s', u)
  }

  ghost predicate Frame(s: State, s': State, t: Id, touched: set<Id>) {
    && ObjectsSame(s, s', touched) && TempsSame(s, s', t)
    && HandlesSame(s, s', t, touched) && FarmsSame(s, s', t) && CallsSame(s, s', t)
  }

  lemma Facts(s: State, t: Id)
    requires Inv(s) && t in s.calls
    ensures PhaseOk(s, t, s.calls[t].phase, s.calls[t].was) && CallOk(s, t)
    ensures Counted(s) && SlotsOk(s) && FarmsOk(s) && ObjectsOk(s) && HandlesOk(s)
  {
    assert CallOk(s, t);
  }

  // What other calls and idle objects rely on is left alone.

  lemma SameSettled(s: State, s': State, t: Id, touched: set<Id>, o: Id)
    requires Frame(s, s', t, touched) && o !in touched && Settled(s, o) && ObjectOk(s, o)
    ensures Settled(s', o) && ObjectOk(s', o)
  {
    assert ObjectSame(s, s', o);
    if s.objects[o].value.Some? {
      assert HandleSame(s, s', t, touched, s.objects[o].value.value);
    }
  }

  lemma SameThen(s: State, s': State, t: Id, touched: set<Id>, u: Id, n: Then, k: Slot, was: Contents)
    requires Frame(s, s', t, touched) && u != t && touched !! ThenUses(n)
    requires ThenOk(s, u, n, k, was) && ObjectsOk(s) && SlotSame(s, s', k)
    ensures ThenOk(s', u, n, k, was)
  {
    match n
    case End =>
    case Return(out, _) => assert ObjectSame(s, s', out);
    case Store(out, h) =>
      assert ObjectSame(s, s', out) && HandleSame(s, s', t, touched, h);
    case Transfer(dst, src) =>
      assert ObjectSame(s, s', dst) && ObjectSame(s, s', src) && ObjectOk(s, src);
      if s.objects[src].value.Some? {
        assert HandleSame(s, s', t, touched, s.objects[src].value.value);
      }
  }

  predicate Holding(ph: Phase) {
    ph.Swapping? || ph.Dropping?
  }

  predicate Ending(ph: Phase) {
    ph.Destroying? || ph.Deleting? || ph.Continuing?
  }

  lemma SameHolding(s: State, s': State, t: Id, touched: set<Id>, u: Id, ph: Phase, was: Contents)
    requires Frame(s, s', t, touched) && u != t && touched !! Exclusive(ph) + Shared(ph)
    requires PhaseOk(s, u, ph, was) && ObjectsOk(s) && Holding(ph)
    ensures PhaseOk(s', u, ph, was)
  {
    var n := ThenOf(ph);
    var k := if ph.Swapping? then Temp(u) else Target(n);
    assert SlotSame(s, s', Temp(u));
    forall o | o in Exclusive(ph) ensures ObjectSame(s, s', o) {}
    if n != End {
      assert SlotSame(s, s', k);
      SameThen(s, s', t, touched, u, n, k, was);
    }
  }

  lemma SameEnding(s: State, s': State, t: Id, touched: set<Id>, u: Id, ph: Phase, was: Contents)
    requires Frame(s, s', t, touched) && u != t && touched !! Exclusive(ph) + Shared(ph)
    requires PhaseOk(s, u, ph, was) && ObjectsOk(s) && Ending(ph)
    ensures PhaseOk(s', u, ph, was)
  {
    var n := ThenOf(ph);
    if n != End {
      assert Target(n).o in Exclusive(ph) && ObjectSame(s, s', Target(n).o);
      SameThen(s, s', t, touched, u, n, Target(n), was);
    }
    if Charge(ph).Some? {
      assert FarmSame(s, s', t, Charge(ph).value);
    }
  }

  lemma SameFactory(s: State, s': State, t: Id, touched: set<Id>, u: Id, ph: Phase, was: Contents)
    requires Frame(s, s', t, touched) && u != t && touched !! Exclusive(ph) + Shared(ph)
    requires PhaseOk(s, u, ph, was) && ObjectsOk(s) && Factory(ph)
    ensures PhaseOk(s', u, ph, was)
  {
    forall o | o in Exclusive(ph) + Shared(ph) ensures ObjectSame(s, s', o) {}
    if ph.Opening? || ph.Attaching? {
      assert ObjectOk(s, ph.out);
      SameSettled(s, s', t, touched, ph.out);
    } else if Carried(ph).Some? {
      assert HandleSame(s, s', t, touched, Carried(ph).value);
    } else {
      assert FarmSame(s, s', t, ph.f);
    }
  }

  /** Resets and the start of a move. */
  lemma SameMoving(s: State, s': State, t: Id, touched: set<Id>, u: Id, ph: Phase, was: Contents)
    requires Frame(s, s', t, touched) && u != t && touched !! Exclusive(ph)
    requires PhaseOk(s, u, ph, was) && ObjectsOk(s) && (ph.Resetting? || ph.Unsubscribed? || ph.Taking?)
    ensures PhaseOk(s', u, ph, was)
  {
    forall o | o in Exclusive(ph) ensures ObjectSame(s, s', o) {}
    forall o | o in Exclusive(ph) && Settled(s, o) ensures Settled(s', o) {
      assert ObjectOk(s, o);
      SameSettled(s, s', t, touched, o);
    }
    if ph.Unsubscribed? {
      assert ObjectOk(s, ph.o);
      assert HandleSame(s, s', t, touched, s.objects[ph.o].value.value);
    }
  }

  /** Another thread's call is where it was. */
  lemma OtherCallOk(s: State, s': State, t: Id, u: Id, touched: set<Id>)
    requires u != t && u in s.calls && CallOk(s, u) && Frame(s, s', t, touched) && ObjectsOk(s)
    requires touched !! Exclusive(s.calls[u].phase) + Shared(s.calls[u].phase)
    ensures u in s'.calls && CallOk(s', u)
  {
    var ph := s.calls[u].phase;
    assert CallSame(s, s', u) && SlotSame(s, s', Temp(u));
    if Holding(ph) {
      SameHolding(s, s', t, touched, u, ph, s.calls[u].was);
    } else if Ending(ph) {
      SameEnding(s, s', t, touched, u, ph, s.calls[u].was);
    } else if Factory(ph) {
      SameFactory(s, s', t, touched, u, ph, s.calls[u].was);
    } else if !ph.Done? {
      SameMoving(s, s', t, touched, u, ph, s.calls[u].was);
    }
  }

  // Putting the invariant back together.

  ghost predicate OwnObjectOk(s: State, t: Id, o: Id) {
    o in s.objects ==> ObjectOk(s, o) && ((t in s.calls && o in Exclusive(s.calls[t].phase)) || Settled(s, o))
  }

  ghost predicate OwnHandleOk(s: State, t: Id, touched: set<Id>, h: Id) {
    h in s.handles && !Outside(t, touched, s.handles[h].owner) ==> HandleOk(s, h)
  }

  /** The call went on without using anything more. */
  ghost predicate Narrowed(s: State, s': State, t: Id) {
    && t in s.calls && t in s'.calls
    && Exclusive(s'.calls[t].phase) <= Exclusive(s.calls[t].phase)
    && Shared(s'.calls[t].phase) <= Shared(s.calls[t].phase)
  }

  lemma ApartKept(s: State, s': State, t: Id)
    requires AllApart(s) && CallsSame(s, s', t) && Narrowed(s, s', t)
    ensures AllApart(s')
  {
    forall u, v | u in s'.calls && v in s'.calls && u != v ensures Apart(s', u, v) {
      assert CallSame(s, s', u) || u == t;
      assert CallSame(s, s', v) || v == t;
      assert Apart(s, u, v);
    }
  }

  lemma FreeBefore(s: State, s': State, t: Id, o: Id)
    requires CallsSame(s, s', t) && Free(s', o) && (t in s.calls ==> o !in Exclusive(s.calls[t].phase))
    ensures Free(s, o)
  {
    forall u | u in s.calls ensures o !in Exclusive(s.calls[u].phase) {
      assert CallSame(s, s', u) || u == t;
    }
  }

  ghost predicate Untouched(s: State, t: Id, touched: set<Id>) {
    && (t in s.calls ==> Exclusive(s.calls[t].phase) <= touched)
    && forall u :: u in s.calls && u != t ==> touched !! Exclusive(s.calls[u].phase) + Shared(s.calls[u].phase)
  }

  /** Whatever thread `t` did, if it left the rest alone and its own things are in order. */
  lemma Assemble(s: State, s': State, t: Id, touched: set<Id>)
    requires Inv(s) && Frame(s, s', t, touched) && Untouched(s, t, touched)
    requires t in s'.calls ==> CallOk(s', t)
    requires AllApart(s') && Counted(s') && SlotsOk(s') && FarmsOk(s')
    requires forall o :: o in touched ==> OwnObjectOk(s', t, o)
    requires forall h :: OwnHandleOk(s', t, touched, h)
    ensures Inv(s')
  {
    forall u | u in s'.calls ensures CallOk(s', u) {
      if u != t {
        assert CallSame(s, s', u);
        OtherCallOk(s, s', t, u, touched);
      }
    }
    forall o | o in s'.objects ensures ObjectOk(s', o) && (Free(s', o) ==> Settled(s', o)) {
      if o in touched {
        assert OwnObjectOk(s', t, o);
      } else {
        OtherObjectOk(s, s', t, touched, o);
      }
    }
    forall h | h in s'.handles ensures HandleOk(s', h) {
      if Outside(t, touched, s'.handles[h].owner) {
        OtherHandleOk(s, s', t, touched, h);
      } else {
        assert OwnHandleOk(s', t, touched, h);
      }
    }
  }

  lemma Reassemble(s: State, s': State, t: Id)
    requires Inv(s) && Narrowed(s, s', t) && Frame(s, s', t, Exclusive(s.calls[t].phase))
    requires CallOk(s', t) && Counted(s') && SlotsOk(s') && FarmsOk(s')
    requires forall o :: o in Exclusive(s.calls[t].phase) ==> OwnObjectOk(s', t, o)
    requires forall h :: OwnHandleOk(s', t, Exclusive(s.calls[t].phase), h)
    ensures Inv(s')
  {
    ApartKept(s, s', t);
    forall u | u in s.calls && u != t
      ensures Exclusive(s.calls[t].phase) !! Exclusive(s.calls[u].phase) + Shared(s.calls[u].phase)
    {
      assert Apart(s, t, u);
    }
    Assemble(s, s', t, Exclusive(s.calls[t].phase));
  }

  lemma OtherObjectOk(s: State, s': State, t: Id, touched: set<Id>, o: Id)
    requires ObjectsOk(s) && Frame(s, s', t, touched) && o in s'.objects && o !in touched
    requires t in s.calls ==> Exclusive(s.calls[t].phase) <= touched
    ensures ObjectOk(s', o) && (Free(s', o) ==> Settled(s', o))
  {
    assert ObjectSame(s, s', o) && ObjectOk(s, o);
    if s.objects[o].value.Some? {
      assert HandleSame(s, s', t, touched, s.objects[o].value.value);
    }
    if Free(s', o) {
      FreeBefore(s, s', t, o);
      SameSettled(s, s', t, touched, o);
    }
  }

  lemma OtherHandleOk(s: State, s': State, t: Id, touched: set<Id>, h: Id)
    requires HandlesOk(s) && Frame(s, s', t, touched) && h in s'.handles && Outside(t, touched, s'.handles[h].owner)
    ensures HandleOk(s', h)
  {
    assert HandleSame(s, s', t, touched, h) && HandleOk(s, h);
    match s.handles[h].owner
    case ByObject(o) => assert ObjectSame(s, s', o);
    case ByCall(u) => assert CallSame(s, s', u);
  }

  // Steps that leave every reference alone.

  lemma SameReferences(s: State, s': State, t: Id)
    requires Inv(s) && t in s.calls && t in s'.calls && CallsSame(s, s', t)
    requires s'.slots == s.slots && s'.references == s.references && s'.farms == s.farms
    requires s'.objects.Keys == s.objects.Keys
    requires HasTemp(t, s'.calls[t].phase) == HasTemp(t, s.calls[t].phase)
    requires Charge(s'.calls[t].phase) == Charge(s.calls[t].phase)
    ensures Counted(s') && SlotsOk(s') && FarmsOk(s')
  {
    forall f | f in s'.references ensures CountOk(s', f) {
      assert CountOk(s, f);
    }
    forall k | k in s'.slots ensures SlotOk(s', k) {
      assert SlotOk(s, k);
      if k.Temp? {
        assert CallSame(s, s', k.t) || k.t == t;
      }
    }
    forall f | f in s'.farms ensures FarmOk(s', f) {
      assert FarmOk(s, f);
      if s.farms[f].charge.Some? {
        assert CallSame(s, s', s.farms[f].charge.value) || s.farms[f].charge == Some(t);
      }
    }
  }

  lemma PassKeeps(s: State, t: Id, ph: Phase)
    requires Inv(s) && t in s.calls
    requires Narrowed(s, Pass(s, t, ph), t) && PhaseOk(s, t, ph, s.calls[t].was)
    requires Carried(ph) == Carried(s.calls[t].phase) && Charge(ph) == Charge(s.calls[t].phase)
    requires HasTemp(t, ph) == HasTemp(t, s.calls[t].phase)
    requires forall o :: o in Exclusive(s.calls[t].phase) && o !in Exclusive(ph) ==> Settled(s, o)
    ensures Inv(Pass(s, t, ph))
  {
    var s' := Pass(s, t, ph);
    PassFrame(s, t, ph);
    SameReferences(s, s', t);
    PassCall(s, t, ph);
    forall o | o in Exclusive(s.calls[t].phase) ensures OwnObjectOk(s', t, o) {
      PassObject(s, t, ph, o);
    }
    forall h ensures OwnHandleOk(s', t, Exclusive(s.calls[t].phase), h) {
      PassHandle(s, t, ph, h);
    }
    Reassemble(s, s', t);
  }

  lemma PassFrame(s: State, t: Id, ph: Phase)
    requires t in s.calls
    ensures Frame(s, Pass(s, t, ph), t, Exclusive(s.calls[t].phase))
  {
  }

  /** Phase conditions do not look at the call table. */
  lemma PassPhase(s: State, t: Id, ph: Phase)
    requires t in s.calls && PhaseOk(s, t, ph, s.calls[t].was)
    ensures PhaseOk(Pass(s, t, ph), t, ph, s.calls[t].was)
  {
  }

  lemma PassCall(s: State, t: Id, ph: Phase)
    requires t in s.calls && CallOk(s, t) && PhaseOk(s, t, ph, s.calls[t].was)
    requires HasTemp(t, ph) == HasTemp(t, s.calls[t].phase)
    ensures CallOk(Pass(s, t, ph), t)
  {
    PassPhase(s, t, ph);
  }

  lemma PassObject(s: State, t: Id, ph: Phase, o: Id)
    requires t in s.calls && ObjectsOk(s) && (o in Exclusive(ph) || Settled(s, o))
    ensures OwnObjectOk(Pass(s, t, ph), t, o)
  {
    if o in s.objects {
      assert ObjectOk(s, o);
    }
  }

  lemma PassHandle(s: State, t: Id, ph: Phase, h: Id)
    requires t in s.calls && HandlesOk(s) && Carried(ph) == Carried(s.calls[t].phase)
    ensures OwnHandleOk(Pass(s, t, ph), t, Exclusive(s.calls[t].phase), h)
  {
    if h in s.handles {
      assert HandleOk(s, h);
    }
  }

  /** A call that holds nothing may return, whatever it answers. */
  lemma FinishKeeps(s: State, t: Id, status: Status)
    requires Inv(s) && t in s.calls
    requires Carried(s.calls[t].phase) == None && Charge(s.calls[t].phase) == None && !HasTemp(t, s.calls[t].phase)
    requires forall o :: o in Exclusive(s.calls[t].phase) ==> Settled(s, o)
    ensures Inv(Pass(s, t, Done(status)))
  {
    PassKeeps(s, t, Done(status));
  }
}
