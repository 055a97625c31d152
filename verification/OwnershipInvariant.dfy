/** What every interleaving of ownership calls keeps. */
module OwnershipInvariant {
  import opened Options
  import opened Ownership

  ghost function Owners(slots: map<Slot, Option<Id>>, f: Id): set<Slot> {
    set k | k in slots && slots[k] == Some(f)
  }

  predicate HasTemp(t: Id, ph: Phase) {
    ph.Swapping? || (ph.Dropping? && ph.k == Temp(t))
  }

  function ThenOf(ph: Phase): Then {
    match ph
    case Swapping(_, n) => n
    case Dropping(_, n) => n
    case Destroying(_, n) => n
    case Deleting(_, n) => n
    case Continuing(n) => n
    case _ => End
  }

  /** The handle a call has obtained and not yet stored or returned. */
  function Carried(ph: Phase): Option<Id> {
    match ph
    case Viewed(_, _, h) => Some(h)
    case Unviewing(_, h, _) => Some(h)
    case Attached(_, _, h) => Some(h)
    case _ => if ThenOf(ph).Store? then Some(ThenOf(ph).h) else None
  }

  /** The Farm a call alone has to dispose of. */
  function Charge(ph: Phase): Option<Id> {
    match ph
    case Opened(_, f) => Some(f)
    case Refused(_, f) => Some(f)
    case Destroying(f, _) => Some(f)
    case Deleting(f, _) => Some(f)
    case _ => None
  }

  // One item at a time.

  ghost predicate CountOk(s: State, f: Id)
    requires f in s.references
  {
    f in s.farms && s.references[f] == |Owners(s.slots, f)|
  }

  ghost predicate SlotOk(s: State, k: Slot)
    requires k in s.slots
  {
    && (s.slots[k].Some? ==> s.slots[k].value in s.references)
    && match k
       case Member(o) => o in s.objects
       case Temp(t) => t in s.calls && HasTemp(t, s.calls[t].phase)
  }

  ghost predicate FarmOk(s: State, f: Id)
    requires f in s.farms
  {
    match s.farms[f].charge
    case None =>
      if f in s.references then s.references[f] > 0 && s.farms[f].destroys == 0 else s.farms[f].destroys == 1
    case Some(t) => t in s.calls && Charge(s.calls[t].phase) == Some(f)
  }

  ghost predicate HandleOk(s: State, h: Id)
    requires h in s.handles
  {
    match s.handles[h].owner
    case ByObject(o) => o in s.objects && s.objects[o].value == Some(h)
    case ByCall(t) => t in s.calls && Carried(s.calls[t].phase) == Some(h)
  }

  ghost predicate ObjectOk(s: State, o: Id)
    requires o in s.objects
  {
    && Member(o) in s.slots
    && match s.objects[o].value
       case None => true
       case Some(h) =>
         h in s.handles && s.handles[h].owner == ByObject(o) && s.objects[o].kind == Holder(s.handles[h].kind)
  }

  /** A wrapper's handle belongs to the Farm that the wrapper retains. */
  ghost predicate Settled(s: State, o: Id) {
    && o in s.objects && Member(o) in s.slots
    && (s.objects[o].value.Some? ==>
          && s.objects[o].value.value in s.handles
          && s.slots[Member(o)].Some?
          && s.handles[s.objects[o].value.value].farm == s.slots[Member(o)])
  }

  ghost predicate Free(s: State, o: Id) {
    forall t :: t in s.calls ==> o !in Exclusive(s.calls[t].phase)
  }

  // One call.

  ghost predicate ThenOk(s: State, t: Id, n: Then, k: Slot, was: Contents) {
    match n
    case End => true
    case Return(out, f) =>
      && out in s.objects && k in s.slots && s.slots[k] == Some(f)
      && s.objects[out] == Wrapper(FarmWrapper, None) && was == Contents(None, None)
    case Store(out, h) =>
      && out in s.objects && h in s.handles && k in s.slots
      && s.objects[out] == Wrapper(Holder(s.handles[h].kind), None)
      && s.handles[h].owner == ByCall(t)
      && s.slots[k].Some? && s.handles[h].farm == s.slots[k]
    case Transfer(dst, src) =>
      if dst == src then
        && dst in s.objects && s.objects[dst] == Wrapper(FarmWrapper, None)
        && k in s.slots && was == Contents(s.slots[k], None)
      else
        && dst in s.objects && src in s.objects && k in s.slots
        && s.objects[dst] == Wrapper(s.objects[src].kind, None)
        && Member(src) in s.slots && s.slots[Member(src)] == None
        && was == Contents(s.slots[k], s.objects[src].value)
        && match s.objects[src].value
           case None => true
           case Some(h) => h in s.handles && s.slots[k].Some? && s.handles[h].farm == s.slots[k]
  }

  /** The member that keeps the handle's Farm alive; any slot will do when there is no handle. */
  function Target(n: Then): Slot {
    match n
    case End => Member(0)
    case Return(out, _) => Member(out)
    case Store(out, _) => Member(out)
    case Transfer(dst, _) => Member(dst)
  }

  ghost predicate Holds(s: State, o: Id, was: Contents) {
    o in s.objects && Member(o) in s.slots && ContentsOf(s, o) == was
  }

  ghost predicate NextOk(s: State, o: Id, next: Option<Id>, was: Contents) {
    && o in s.objects && Member(o) in s.slots && s.objects[o].kind.Holder?
    && match next
       case None => true
       case Some(src) =>
         src != o && Settled(s, src) && s.objects[src].kind == s.objects[o].kind && Holds(s, src, was)
  }

  ghost predicate PhaseOk(s: State, t: Id, ph: Phase, was: Contents) {
    match ph
    case Opening(out) => Settled(s, out) && s.objects[out].kind.FarmWrapper? && Holds(s, out, was)
    case Opened(out, f) =>
      && Holds(s, out, was) && s.objects[out].kind.FarmWrapper? && was == Contents(None, None)
      && f in s.farms && s.farms[f] == Farm(0, Some(t)) && f !in s.references
    case Refused(out, f) =>
      && Holds(s, out, was) && s.objects[out].kind.FarmWrapper? && was == Contents(None, None)
      && f in s.farms && s.farms[f] == Farm(0, Some(t)) && f !in s.references
    case Attaching(out, from) =>
      Settled(s, out) && s.objects[out].kind.Holder? && Holds(s, out, was) && Member(from) in s.slots
    case Viewed(out, from, h) =>
      && Holds(s, out, was) && was.value.None? && s.objects[out].kind == Holder(View)
      && h in s.handles && s.handles[h] == Handle(View, None, ByCall(t))
      && Member(from) in s.slots && s.slots[Member(from)].Some?
    case Unviewing(out, h, status) =>
      && Holds(s, out, was) && was.value.None? && status != Ok
      && h in s.handles && s.handles[h] == Handle(View, None, ByCall(t))
    case Attached(out, from, h) =>
      && Holds(s, out, was) && was.value.None?
      && h in s.handles && s.objects[out].kind == Holder(s.handles[h].kind)
      && Member(from) in s.slots && s.slots[Member(from)].Some?
      && s.handles[h].farm == s.slots[Member(from)] && s.handles[h].owner == ByCall(t)
    case Resetting(o, next) => Settled(s, o) && NextOk(s, o, next, was)
    case Unsubscribed(o, next) =>
      && NextOk(s, o, next, was) && s.objects[o].value.Some?
      && s.objects[o].value.value in s.handles
      && s.handles[s.objects[o].value.value].farm.None? && s.handles[s.objects[o].value.value].kind == View
    case Taking(dst, src) =>
      && Settled(s, src) && Holds(s, src, was) && dst in s.objects && Member(dst) in s.slots
      && s.objects[dst] == Wrapper(s.objects[src].kind, None)
      && (s.objects[dst].kind.Holder? ==> dst != src)
    case Swapping(dst, n) =>
      && ThenOk(s, t, n, Temp(t), was) && Temp(t) in s.slots && Member(dst) in s.slots && dst in s.objects
      && n != End && Target(n) == Member(dst)
    case Dropping(k, n) =>
      && ThenOk(s, t, n, Target(n), was) && k in s.slots
      && (match k
          case Temp(u) => u == t
          case Member(o) => n == End && o in s.objects && s.objects[o].value.None?)
    case Destroying(f, n) =>
      && ThenOk(s, t, n, Target(n), was)
      && f in s.farms && s.farms[f] == Farm(0, Some(t)) && f in s.references && s.references[f] == 0
    case Deleting(f, n) =>
      && ThenOk(s, t, n, Target(n), was)
      && f in s.farms && s.farms[f] == Farm(1, Some(t)) && f in s.references && s.references[f] == 0
    case Continuing(n) => ThenOk(s, t, n, Target(n), was)
    case Done(_) => true
  }

  ghost predicate CallOk(s: State, t: Id)
    requires t in s.calls
  {
    && PhaseOk(s, t, s.calls[t].phase, s.calls[t].was)
    && (HasTemp(t, s.calls[t].phase) ==> Temp(t) in s.slots)
  }

  ghost predicate Apart(s: State, t: Id, u: Id)
    requires t in s.calls && u in s.calls
  {
    Exclusive(s.calls[t].phase) !! Exclusive(s.calls[u].phase) + Shared(s.calls[u].phase)
  }

  // All of them.

  ghost predicate Counted(s: State) {
    forall f :: f in s.references ==> CountOk(s, f)
  }

  ghost predicate SlotsOk(s: State) {
    forall k :: k in s.slots ==> SlotOk(s, k)
  }

  ghost predicate FarmsOk(s: State) {
    forall f :: f in s.farms ==> FarmOk(s, f)
  }

  ghost predicate HandlesOk(s: State) {
    forall h :: h in s.handles ==> HandleOk(s, h)
  }

  ghost predicate ObjectsOk(s: State) {
    forall o :: o in s.objects ==> ObjectOk(s, o) && (Free(s, o) ==> Settled(s, o))
  }

  ghost predicate CallsOk(s: State) {
    forall t :: t in s.calls ==> CallOk(s, t)
  }

  ghost predicate AllApart(s: State) {
    forall t, u :: t in s.calls && u in s.calls && t != u ==> Apart(s, t, u)
  }

  ghost predicate Inv(s: State) {
    Counted(s) && SlotsOk(s) && FarmsOk(s) && HandlesOk(s) && ObjectsOk(s) && CallsOk(s) && AllApart(s)
  }

  // Consequences.

  lemma InvReady(s: State, t: Id)
    requires Inv(s) && t in s.calls
    ensures Ready(s, t, s.calls[t].phase)
  {
    assert CallOk(s, t);
    match s.calls[t].phase
    case Dropping(k, _) =>
      assert SlotOk(s, k);
      if s.slots[k].Some? {
        var f := s.slots[k].value;
        assert CountOk(s, f) && k in Owners(s.slots, f);
      }
    case Attached(_, from, _) => assert SlotOk(s, Member(from));
    case Resetting(o, _) => assert ObjectOk(s, o);
    case Continuing(n) =>
      if n.Transfer? {
        assert ObjectOk(s, n.src);
      }
    case _ =>
  }
}
