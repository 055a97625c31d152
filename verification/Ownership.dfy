/** The C++ ownership adapter: reference-counted Farms, the wrappers that share them and the
    handles they own, as the atomic steps that calls on different threads interleave. */
module Ownership {
  import opened Options

  // A Farm and its control block share an id, because each control block is made for one Farm.
  type Id = nat

  datatype HandleKind = Token | View | Park

  datatype WrapperKind = FarmWrapper | Holder(of: HandleKind)

  /** A live wrapper. `value` is its handle; a Farm wrapper has none. */
  datatype Wrapper = Wrapper(kind: WrapperKind, value: Option<Id>)

  /** A live `farm_ref`: a wrapper's member, or the by-value parameter of a thread's assignment. */
  datatype Slot = Member(o: Id) | Temp(t: Id)

  datatype Owner = ByObject(o: Id) | ByCall(t: Id)

  /** A C handle not yet returned. `farm` is empty for a view that is not subscribed; `owner` is
      auxiliary and says which wrapper or which call in progress has to return it. */
  datatype Handle = Handle(kind: HandleKind, farm: Option<Id>, owner: Owner)

  /** A Farm ever created: how often `af_destroy` ran on it. `charge` is auxiliary and names the
      thread, if any, that alone has to destroy it or free its control block. */
  datatype Farm = Farm(destroys: nat, charge: Option<Id>)

  datatype Status = Ok | Busy | Invalid | AllocationFailed | CError(code: nat)

  /** What is left of a call after its `farm_ref` assignment or destructor: nothing, to return from
      `farm::create`, to store a handle, or to move one. */
  datatype Then = End | Return(out: Id, f: Id) | Store(out: Id, h: Id) | Transfer(dst: Id, src: Id)

  /** Where a call is. Each phase names the next atomic step. */
  datatype Phase =
    | Opening(out: Id)                             // farm::create: busy check, af_create
    | Opened(out: Id, f: Id)                       //   new farm_control
    | Refused(out: Id, f: Id)                      //   af_destroy after a failed allocation
    | Attaching(out: Id, from: Id)                 // holder create: busy check, first C call
    | Viewed(out: Id, from: Id, h: Id)             //   af_subscribe
    | Unviewing(out: Id, h: Id, status: Status)    //   af_view_destroy after a failed subscribe
    | Attached(out: Id, from: Id, h: Id)           //   copy of the Farm's farm_ref: fetch_add
    | Resetting(o: Id, next: Option<Id>)           // reset, then move from `next` or destruct
    | Unsubscribed(o: Id, next: Option<Id>)        //   af_view_destroy inside reset
    | Taking(dst: Id, src: Id)                     // move the source's farm_ref into the parameter
    | Swapping(dst: Id, andThen: Then)             // swap parameter and member
    | Dropping(k: Slot, andThen: Then)             // ~farm_ref: fetch_sub
    | Destroying(f: Id, andThen: Then)             //   af_destroy by the final owner
    | Deleting(f: Id, andThen: Then)               //   delete of the control block
    | Continuing(andThen: Then)                    // remaining assignments of value_
    | Done(status: Status)

  /** A wrapper's two pointers. */
  datatype Contents = Contents(farm: Option<Id>, value: Option<Id>)

  /** `was` records what the output (of a factory) or the source (of a move) held at the start. */
  datatype Call = Call(phase: Phase, was: Contents)

  datatype State = State(
    objects: map<Id, Wrapper>,
    slots: map<Slot, Option<Id>>,
    references: map<Id, nat>,
    farms: map<Id, Farm>,
    handles: map<Id, Handle>,
    calls: map<Id, Call>)

  const EMPTY := State(map[], map[], map[], map[], map[], map[])

  // Which objects a call uses. C++ lets calls share an object only through const references.

  function ThenUses(n: Then): set<Id> {
    match n
    case End => {}
    case Return(out, _) => {out}
    case Store(out, _) => {out}
    case Transfer(dst, src) => {dst, src}
  }

  function Exclusive(ph: Phase): set<Id> {
    match ph
    case Opening(out) => {out}
    case Opened(out, _) => {out}
    case Refused(out, _) => {out}
    case Attaching(out, _) => {out}
    case Viewed(out, _, _) => {out}
    case Unviewing(out, _, _) => {out}
    case Attached(out, _, _) => {out}
    case Resetting(o, next) => if next.Some? then {o, next.value} else {o}
    case Unsubscribed(o, next) => if next.Some? then {o, next.value} else {o}
    case Taking(dst, src) => {dst, src}
    case Swapping(dst, n) => {dst} + ThenUses(n)
    case Dropping(k, n) => (if k.Member? then {k.o} else {}) + ThenUses(n)
    case Destroying(_, n) => ThenUses(n)
    case Deleting(_, n) => ThenUses(n)
    case Continuing(n) => ThenUses(n)
    case Done(_) => {}
  }

  function Shared(ph: Phase): set<Id> {
    match ph
    case Attaching(_, from) => {from}
    case Viewed(_, from, _) => {from}
    case Attached(_, from, _) => {from}
    case _ => {}
  }

  // Steps.

  /** What the environment decides at a step: a failing C call or allocation, or a fresh id. */
  datatype Choice = Fails(status: Status) | Gives(id: Id)

  function Moved(s: State, t: Id, ph: Phase): map<Id, Call>
    requires t in s.calls
  {
    s.calls[t := Call(ph, s.calls[t].was)]
  }

  /** A step that only moves the call on: a test, a return, or a C call without effect. */
  function Pass(s: State, t: Id, ph: Phase): State
    requires t in s.calls
  {
    State(s.objects, s.slots, s.references, s.farms, s.handles, Moved(s, t, ph))
  }

  /** `af_create` succeeds. */
  function FarmMade(s: State, t: Id, out: Id, f: Id): State
    requires t in s.calls
  {
    State(s.objects, s.slots, s.references, s.farms[f := Farm(0, Some(t))], s.handles, Moved(s, t, Opened(out, f)))
  }

  /** The control block exists, and the assignment's parameter is its first reference. */
  function ControlMade(s: State, t: Id, out: Id, f: Id): State
    requires t in s.calls && f in s.farms
  {
    State(s.objects, s.slots[Temp(t) := Some(f)], s.references[f := 1],
          s.farms[f := Farm(s.farms[f].destroys, None)], s.handles, Moved(s, t, Swapping(out, Return(out, f))))
  }

  /** `af_destroy`; `charge` is what remains to be done for the Farm, if anything. */
  function FarmDestroyed(s: State, t: Id, f: Id, charge: Option<Id>, ph: Phase): State
    requires t in s.calls && f in s.farms
  {
    State(s.objects, s.slots, s.references, s.farms[f := Farm(s.farms[f].destroys + 1, charge)], s.handles,
          Moved(s, t, ph))
  }

  function ControlDeleted(s: State, t: Id, f: Id, n: Then): State
    requires t in s.calls && f in s.farms
  {
    State(s.objects, s.slots, s.references - {f}, s.farms[f := Farm(s.farms[f].destroys, None)], s.handles,
          Moved(s, t, Continuing(n)))
  }

  /** A C call returns a handle, or changes what one is bound to. */
  function HandleSet(s: State, t: Id, h: Id, kind: HandleKind, farm: Option<Id>, w: Owner, ph: Phase): State
    requires t in s.calls
  {
    State(s.objects, s.slots, s.references, s.farms, s.handles[h := Handle(kind, farm, w)], Moved(s, t, ph))
  }

  /** A failed subscription gives back the view. */
  function ViewDropped(s: State, t: Id, h: Id, status: Status): State
    requires t in s.calls
  {
    State(s.objects, s.slots, s.references, s.farms, s.handles - {h}, Moved(s, t, Done(status)))
  }

  /** `af_unregister_producer`, `af_view_destroy` or `af_private_roots_destroy`, and a null `value_`. */
  function HandleReturned(s: State, t: Id, o: Id, h: Id, ph: Phase): State
    requires t in s.calls && o in s.objects
  {
    State(s.objects[o := Wrapper(s.objects[o].kind, None)], s.slots, s.references, s.farms, s.handles - {h},
          Moved(s, t, ph))
  }

  /** The by-value parameter copies the Farm wrapper's `farm_ref`: `fetch_add`. */
  function RefCopied(s: State, t: Id, f: Id, out: Id, h: Id): State
    requires t in s.calls && f in s.references
  {
    State(s.objects, s.slots[Temp(t) := Some(f)], s.references[f := s.references[f] + 1], s.farms, s.handles,
          Moved(s, t, Swapping(out, Store(out, h))))
  }

  function RefTaken(s: State, t: Id, src: Id, ph: Phase): State
    requires t in s.calls && Member(src) in s.slots
  {
    State(s.objects, s.slots[Temp(t) := s.slots[Member(src)]][Member(src) := None], s.references, s.farms, s.handles,
          Moved(s, t, ph))
  }

  function RefSwapped(s: State, t: Id, dst: Id, n: Then): State
    requires t in s.calls && Temp(t) in s.slots && Member(dst) in s.slots
  {
    State(s.objects, s.slots[Temp(t) := s.slots[Member(dst)]][Member(dst) := s.slots[Temp(t)]],
          s.references, s.farms, s.handles, Moved(s, t, Dropping(Temp(t), n)))
  }

  function Without(s: State, k: Slot): map<Id, Wrapper> {
    if k.Member? then s.objects - {k.o} else s.objects
  }

  function NullDropped(s: State, t: Id, k: Slot, n: Then): State
    requires t in s.calls
  {
    State(Without(s, k), s.slots - {k}, s.references, s.farms, s.handles, Moved(s, t, Continuing(n)))
  }

  /** `fetch_sub` that was not the last. */
  function RefDropped(s: State, t: Id, k: Slot, f: Id, n: Then): State
    requires t in s.calls && f in s.references && s.references[f] > 0
  {
    State(Without(s, k), s.slots - {k}, s.references[f := s.references[f] - 1], s.farms, s.handles,
          Moved(s, t, Continuing(n)))
  }

  /** `fetch_sub` that returned one: the final owner destroys. */
  function LastDropped(s: State, t: Id, k: Slot, f: Id, n: Then): State
    requires t in s.calls && f in s.farms
  {
    State(Without(s, k), s.slots - {k}, s.references[f := 0], s.farms[f := Farm(s.farms[f].destroys, Some(t))],
          s.handles, Moved(s, t, Destroying(f, n)))
  }

  function Stored(s: State, t: Id, out: Id, h: Id): State
    requires t in s.calls && out in s.objects && h in s.handles
  {
    State(s.objects[out := Wrapper(s.objects[out].kind, Some(h))], s.slots, s.references, s.farms,
          s.handles[h := Handle(s.handles[h].kind, s.handles[h].farm, ByObject(out))], Moved(s, t, Done(Ok)))
  }

  function Transferred(s: State, t: Id, dst: Id, src: Id, h: Id): State
    requires t in s.calls && dst in s.objects && src in s.objects && h in s.handles
  {
    State(s.objects[dst := Wrapper(s.objects[dst].kind, Some(h))][src := Wrapper(s.objects[src].kind, None)],
          s.slots, s.references, s.farms,
          s.handles[h := Handle(s.handles[h].kind, s.handles[h].farm, ByObject(dst))], Moved(s, t, Done(Ok)))
  }

  function AfterReset(o: Id, next: Option<Id>): Phase {
    if next.Some? then Taking(o, next.value) else Dropping(Member(o), End)
  }

  /** The next step is well defined: the objects, slots, counters and handles it works on exist. */
  predicate Ready(s: State, t: Id, ph: Phase) {
    match ph
    case Opening(out) => Member(out) in s.slots
    case Opened(_, f) => f in s.farms
    case Refused(_, f) => f in s.farms
    case Attaching(out, from) =>
      out in s.objects && s.objects[out].kind.Holder? && Member(from) in s.slots
    case Viewed(_, from, h) => Member(from) in s.slots && h in s.handles
    case Unviewing(_, h, _) => h in s.handles
    case Attached(_, from, h) =>
      Member(from) in s.slots && s.slots[Member(from)].Some? && s.slots[Member(from)].value in s.references
    case Resetting(o, _) =>
      o in s.objects && (s.objects[o].value.Some? ==> s.objects[o].value.value in s.handles)
    case Unsubscribed(o, _) => o in s.objects && s.objects[o].value.Some?
    case Taking(dst, src) => dst in s.objects && Member(src) in s.slots
    case Swapping(dst, _) => Temp(t) in s.slots && Member(dst) in s.slots
    case Dropping(k, _) =>
      k in s.slots && (s.slots[k].Some? ==>
        s.slots[k].value in s.references && s.references[s.slots[k].value] > 0 && s.slots[k].value in s.farms)
    case Destroying(f, _) => f in s.farms
    case Deleting(f, _) => f in s.farms
    case Continuing(n) =>
      (match n
       case End => true
       case Return(_, _) => true
       case Store(out, h) => out in s.objects && h in s.handles
       case Transfer(dst, src) =>
         && dst in s.objects && src in s.objects
         && (s.objects[src].value.Some? ==> s.objects[src].value.value in s.handles))
    case Done(_) => true
  }

  // What the next step of a call dereferences.

  function Pointee(s: State, k: Slot): set<Id> {
    if k in s.slots && s.slots[k].Some? then {s.slots[k].value} else {}
  }

  function ValueOf(s: State, o: Id): set<Id> {
    if o in s.objects && s.objects[o].value.Some? then {s.objects[o].value.value} else {}
  }

  function BoundTo(s: State, h: Id): set<Id> {
    if h in s.handles && s.handles[h].farm.Some? then {s.handles[h].farm.value} else {}
  }

  /** Control blocks: `p_->references` of copies and drops, `p_->value` of `get()` and of the final
      owner, and the block it deletes. */
  function Blocks(s: State, ph: Phase): set<Id> {
    match ph
    case Opening(out) => Pointee(s, Member(out))
    case Attaching(_, from) => Pointee(s, Member(from))
    case Viewed(_, from, _) => Pointee(s, Member(from))
    case Attached(_, from, _) => Pointee(s, Member(from))
    case Resetting(o, _) => Pointee(s, Member(o))
    case Dropping(k, _) => Pointee(s, k)
    case Destroying(f, _) => {f}
    case Deleting(f, _) => {f}
    case _ => {}
  }

  /** Farms passed to C calls or to a new control block, and Farms of the handles that are returned. */
  function OpenFarms(s: State, ph: Phase): set<Id> {
    match ph
    case Opened(_, f) => {f}
    case Refused(_, f) => {f}
    case Attaching(_, from) => Pointee(s, Member(from))
    case Viewed(_, from, _) => Pointee(s, Member(from))
    case Resetting(o, _) =>
      if o in s.objects && s.objects[o].value.Some? then
        Pointee(s, Member(o)) + BoundTo(s, s.objects[o].value.value)
      else {}
    case Destroying(f, _) => {f}
    case _ => {}
  }

  /** Handles passed to C calls. */
  function HandlesUsed(s: State, ph: Phase): set<Id> {
    match ph
    case Viewed(_, _, h) => {h}
    case Unviewing(_, h, _) => {h}
    case Resetting(o, _) => ValueOf(s, o)
    case Unsubscribed(o, _) => ValueOf(s, o)
    case _ => {}
  }

  /** Everything the next step dereferences still exists, and every Farm it uses is still open; a
      handle is returned to the Farm that its wrapper holds. */
  ghost predicate Alive(s: State, ph: Phase) {
    && Blocks(s, ph) <= s.references.Keys
    && (forall f :: f in OpenFarms(s, ph) ==> f in s.farms && s.farms[f].destroys == 0)
    && HandlesUsed(s, ph) <= s.handles.Keys
    && (ph.Resetting? ==> forall h :: h in ValueOf(s, ph.o) ==>
          h in s.handles && Member(ph.o) in s.slots && s.slots[Member(ph.o)].Some? &&
          s.handles[h].farm == s.slots[Member(ph.o)])
  }

  /** The order of a call's phases. */
  predicate Follows(a: Phase, b: Phase) {
    match a
    case Opening(out) => (b.Done? && b.status != Ok) || (b.Opened? && b.out == out)
    case Opened(out, f) => b == Refused(out, f) || b == Swapping(out, Return(out, f))
    case Refused(_, _) => b == Done(AllocationFailed)
    case Attaching(out, from) =>
      || (b.Done? && b.status != Ok)
      || (b.Viewed? && b == Viewed(out, from, b.h)) || (b.Attached? && b == Attached(out, from, b.h))
    case Viewed(out, from, h) => b == Attached(out, from, h) || (b.Unviewing? && b == Unviewing(out, h, b.status))
    case Unviewing(_, _, status) => b == Done(status)
    case Attached(out, _, h) => b == Swapping(out, Store(out, h))
    case Resetting(o, next) => b == Unsubscribed(o, next) || b == AfterReset(o, next)
    case Unsubscribed(o, next) => b == AfterReset(o, next)
    case Taking(dst, src) => b == Swapping(dst, Transfer(dst, src))
    case Swapping(_, n) => b.Dropping? && b.k.Temp? && b.andThen == n
    case Dropping(_, n) => b == Continuing(n) || (b.Destroying? && b.andThen == n)
    case Destroying(f, n) => b == Deleting(f, n)
    case Deleting(_, n) => b == Continuing(n)
    case Continuing(_) => b == Done(Ok)
    case Done(_) => false
  }

  /** A step moves one call on to a following phase and leaves every other call where it is; a
      failing return writes nothing. */
  predicate Progresses(s: State, s': State, t: Id)
    requires t in s.calls
  {
    && t in s'.calls && s'.calls == s.calls[t := s'.calls[t]]
    && s'.calls[t].was == s.calls[t].was && Follows(s.calls[t].phase, s'.calls[t].phase)
    && (s'.calls[t].phase.Done? && s'.calls[t].phase.status != Ok ==> s'.objects == s.objects && s'.slots == s.slots)
  }

  /** The phases of a factory until it can no longer fail. */
  predicate Factory(ph: Phase) {
    ph.Opening? || ph.Opened? || ph.Refused? || ph.Attaching? || ph.Viewed? || ph.Unviewing? || ph.Attached?
  }

  /** One atomic step of thread `t`'s call; `None` when the choice does not fit. */
  function Advance(s: State, t: Id, c: Choice): (r: Option<State>)
    requires t in s.calls && Ready(s, t, s.calls[t].phase)
    ensures r.Some? ==> Progresses(s, r.value, t)
  {
    if s.calls[t].phase.Done? then None
    else if Factory(s.calls[t].phase) then StepFactory(s, t, c)
    else Some(StepOwner(s, t))
  }

  function StepFactory(s: State, t: Id, c: Choice): (r: Option<State>)
    requires t in s.calls && Factory(s.calls[t].phase) && Ready(s, t, s.calls[t].phase)
    ensures r.Some? ==> Progresses(s, r.value, t)
  {
    match s.calls[t].phase
    case Opening(out) => StepOpening(s, t, c, out)
    case Opened(out, f) => Some(if c.Fails? then Pass(s, t, Refused(out, f)) else ControlMade(s, t, out, f))
    case Refused(out, f) => Some(FarmDestroyed(s, t, f, None, Done(AllocationFailed)))
    case Attaching(out, from) => StepAttaching(s, t, c, out, from)
    case Viewed(out, from, h) => StepViewed(s, t, c, out, from, h)
    case Unviewing(out, h, status) => Some(ViewDropped(s, t, h, status))
    case Attached(out, from, h) => Some(RefCopied(s, t, s.slots[Member(from)].value, out, h))
  }

  /** Resets, moves, drops and the assignments that remain: nothing of these can fail. */
  function StepOwner(s: State, t: Id): (r: State)
    requires t in s.calls && !Factory(s.calls[t].phase) && !s.calls[t].phase.Done? && Ready(s, t, s.calls[t].phase)
    ensures Progresses(s, r, t)
  {
    match s.calls[t].phase
    case Resetting(o, next) => StepResetting(s, t, o, next)
    case Unsubscribed(o, next) => HandleReturned(s, t, o, s.objects[o].value.value, AfterReset(o, next))
    case Taking(dst, src) => RefTaken(s, t, src, Swapping(dst, Transfer(dst, src)))
    case Swapping(dst, n) => RefSwapped(s, t, dst, n)
    case Dropping(k, n) => StepDropping(s, t, k, n)
    case Destroying(f, n) => FarmDestroyed(s, t, f, Some(t), Deleting(f, n))
    case Deleting(f, n) => ControlDeleted(s, t, f, n)
    case Continuing(n) => StepContinuing(s, t, n)
  }

  function StepOpening(s: State, t: Id, c: Choice, out: Id): (r: Option<State>)
    requires t in s.calls && Member(out) in s.slots
    ensures r.Some? && s.calls[t].phase == Opening(out) ==> Progresses(s, r.value, t)
  {
    if s.slots[Member(out)].Some? then Some(Pass(s, t, Done(Busy)))
    else match c
    case Fails(status) => if status == Ok then None else Some(Pass(s, t, Done(status)))
    case Gives(f) => if f in s.farms then None else Some(FarmMade(s, t, out, f))
  }

  function StepAttaching(s: State, t: Id, c: Choice, out: Id, from: Id): (r: Option<State>)
    requires t in s.calls && Ready(s, t, Attaching(out, from))
    ensures r.Some? && s.calls[t].phase == Attaching(out, from) ==> Progresses(s, r.value, t)
  {
    var farm, kind := s.slots[Member(from)], s.objects[out].kind.of;
    if s.objects[out].value.Some? then Some(Pass(s, t, Done(Busy)))
    else if kind == View && farm.None? then Some(Pass(s, t, Done(Invalid)))
    else match c
    case Fails(status) => if status == Ok then None else Some(Pass(s, t, Done(status)))
    case Gives(h) =>
      if h in s.handles then None
      else if kind == View then Some(HandleSet(s, t, h, View, None, ByCall(t), Viewed(out, from, h)))
      else if farm.None? then None
      else Some(HandleSet(s, t, h, kind, farm, ByCall(t), Attached(out, from, h)))
  }

  function StepViewed(s: State, t: Id, c: Choice, out: Id, from: Id, h: Id): (r: Option<State>)
    requires t in s.calls && Ready(s, t, Viewed(out, from, h))
    ensures r.Some? && s.calls[t].phase == Viewed(out, from, h) ==> Progresses(s, r.value, t)
  {
    match c
    case Fails(status) => if status == Ok then None else Some(Pass(s, t, Unviewing(out, h, status)))
    case Gives(_) => Some(HandleSet(s, t, h, View, s.slots[Member(from)], ByCall(t), Attached(out, from, h)))
  }

  function StepResetting(s: State, t: Id, o: Id, next: Option<Id>): (r: State)
    requires t in s.calls && Ready(s, t, Resetting(o, next))
    ensures s.calls[t].phase == Resetting(o, next) ==> Progresses(s, r, t)
  {
    match s.objects[o].value
    case None => Pass(s, t, AfterReset(o, next))
    case Some(h) =>
      if s.handles[h].kind == View then HandleSet(s, t, h, View, None, s.handles[h].owner, Unsubscribed(o, next))
      else HandleReturned(s, t, o, h, AfterReset(o, next))
  }

  function StepDropping(s: State, t: Id, k: Slot, n: Then): (r: State)
    requires t in s.calls && Ready(s, t, Dropping(k, n))
    ensures s.calls[t].phase == Dropping(k, n) ==> Progresses(s, r, t)
  {
    match s.slots[k]
    case None => NullDropped(s, t, k, n)
    case Some(f) => if s.references[f] == 1 then LastDropped(s, t, k, f, n) else RefDropped(s, t, k, f, n)
  }

  function StepContinuing(s: State, t: Id, n: Then): (r: State)
    requires t in s.calls && Ready(s, t, Continuing(n))
    ensures s.calls[t].phase == Continuing(n) ==> Progresses(s, r, t)
  {
    match n
    case End => Pass(s, t, Done(Ok))
    case Return(_, _) => Pass(s, t, Done(Ok))
    case Store(out, h) => Stored(s, t, out, h)
    case Transfer(dst, src) =>
      if s.objects[src].value.None? then Pass(s, t, Done(Ok))
      else Transferred(s, t, dst, src, s.objects[src].value.value)
  }

  // Calls begin.

  datatype Start =
    | Default(o: Id, kind: WrapperKind)
    | CreateFarm(out: Id)
    | CreateHolder(out: Id, from: Id)
    | MoveConstruct(fresher: Id, src: Id)
    | MoveAssign(dst: Id, src: Id)
    | Destruct(o: Id)

  predicate Usable(s: State, exclusive: set<Id>, shared: set<Id>) {
    && (forall o :: o in exclusive + shared ==> o in s.objects)
    && forall t :: t in s.calls ==>
         && exclusive !! Exclusive(s.calls[t].phase) + Shared(s.calls[t].phase)
         && shared !! Exclusive(s.calls[t].phase)
  }

  /** The language's rules: objects are alive, of the right type, and not raced on. */
  predicate MayBegin(s: State, t: Id, b: Start) {
    && t !in s.calls
    && match b
       case Default(o, _) => o !in s.objects
       case CreateFarm(out) => Usable(s, {out}, {}) && s.objects[out].kind.FarmWrapper?
       case CreateHolder(out, from) =>
         Usable(s, {out}, {from}) && s.objects[out].kind.Holder? && s.objects[from].kind.FarmWrapper?
       case MoveConstruct(o, src) => o !in s.objects && Usable(s, {src}, {})
       case MoveAssign(dst, src) => Usable(s, {dst, src}, {}) && s.objects[dst].kind == s.objects[src].kind
       case Destruct(o) => Usable(s, {o}, {})
  }

  function ContentsOf(s: State, o: Id): Contents
    requires o in s.objects && Member(o) in s.slots
  {
    Contents(s.slots[Member(o)], s.objects[o].value)
  }

  function Begin(s: State, t: Id, b: Start): State
    requires MayBegin(s, t, b) && forall o :: o in s.objects ==> Member(o) in s.slots
  {
    match b
    case Default(o, kind) =>
      s.(objects := s.objects[o := Wrapper(kind, None)], slots := s.slots[Member(o) := None])
    case CreateFarm(out) => s.(calls := s.calls[t := Call(Opening(out), ContentsOf(s, out))])
    case CreateHolder(out, from) => s.(calls := s.calls[t := Call(Attaching(out, from), ContentsOf(s, out))])
    case MoveConstruct(o, src) =>
      var farm, kind := s.slots[Member(src)], s.objects[src].kind;
      s.(objects := s.objects[o := Wrapper(kind, None)],
         slots := s.slots[Member(o) := farm][Member(src) := None],
         calls := s.calls[t := Call(Continuing(Transfer(o, src)), ContentsOf(s, src))])
    case MoveAssign(dst, src) =>
      s.(calls := s.calls[t := Call(AssignFrom(s.objects[dst].kind, dst, src), ContentsOf(s, src))])
    case Destruct(o) =>
      s.(calls := s.calls[t := Call(Destroy(s.objects[o].kind, o), ContentsOf(s, o))])
  }

  /** A Farm wrapper's defaulted assignment has no self check; the holders have one. */
  function AssignFrom(kind: WrapperKind, dst: Id, src: Id): Phase {
    if kind.FarmWrapper? then Taking(dst, src)
    else if dst == src then Done(Ok) else Resetting(dst, Some(src))
  }

  function Destroy(kind: WrapperKind, o: Id): Phase {
    if kind.FarmWrapper? then Dropping(Member(o), End) else Resetting(o, None)
  }

  /** The thread is done with its call. */
  function Returned(s: State, t: Id): State {
    State(s.objects, s.slots, s.references, s.farms, s.handles, s.calls - {t})
  }
}
