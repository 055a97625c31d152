/** Steps that copy, move, swap and drop references keep the invariant. */
module OwnershipCounts {
  import opened Options
  import opened Ownership
  import opened OwnershipInvariant
  import opened OwnershipSteps
  import opened OwnershipReferences

  // Tables that a step leaves in order.

  ghost predicate TableOk(s: State, s': State, t: Id, k: Slot)
    requires k in s'.slots
  {
    && (s'.slots[k].Some? ==> s'.slots[k].value in s'.references)
    && match k
       case Member(o) => o in s'.objects
       case Temp(u) => if u == t then t in s'.calls && HasTemp(t, s'.calls[t].phase) else k in s.slots
  }

  lemma SlotsKept(s: State, s': State, t: Id)
    requires SlotsOk(s) && CallsSame(s, s', t)
    requires forall k :: k in s'.slots ==> TableOk(s, s', t, k)
    ensures SlotsOk(s')
  {
    forall k | k in s'.slots ensures SlotOk(s', k) {
      assert TableOk(s, s', t, k);
      if k.Temp? && k.t != t {
        assert SlotOk(s, k) && CallSame(s, s', k.t);
      }
    }
  }

  lemma FarmsKept(s: State, s': State, t: Id)
    requires FarmsOk(s) && CallsSame(s, s', t) && t in s.calls && t in s'.calls
    requires s'.farms == s.farms && s'.references.Keys == s.references.Keys
    requires forall f :: f in s.references && s.references[f] > 0 ==> s'.references[f] > 0
    requires Charge(s.calls[t].phase) == None
    ensures FarmsOk(s')
  {
    forall f | f in s'.farms ensures FarmOk(s', f) {
      assert FarmOk(s, f);
      if s.farms[f].charge.Some? {
        assert CallSame(s, s', s.farms[f].charge.value);
      }
    }
  }

  lemma NoTemp(s: State, t: Id)
    requires SlotsOk(s) && t in s.calls && !HasTemp(t, s.calls[t].phase)
    ensures Temp(t) !in s.slots
  {
    assert Temp(t) in s.slots ==> SlotOk(s, Temp(t));
  }

  // The first reference and copies.

  lemma FirstFrame(s: State, t: Id, out: Id, f: Id)
    requires t in s.calls && f in s.farms && s.farms[f].charge == Some(t)
    ensures Frame(s, ControlMade(s, t, out, f), t, {out})
  {
  }

  lemma FirstTables(s: State, t: Id, out: Id, f: Id)
    requires t in s.calls && s.calls[t].phase == Opened(out, f) && f in s.farms && f !in s.references
    requires s.farms[f] == Farm(0, Some(t)) && Counted(s) && SlotsOk(s) && FarmsOk(s)
    ensures var s' := ControlMade(s, t, out, f); Counted(s') && SlotsOk(s') && FarmsOk(s')
  {
    var s' := ControlMade(s, t, out, f);
    NoTemp(s, t);
    NoOwner(s, f);
    forall g | g in s'.references ensures CountOk(s', g) {
      OwnersPut(s.slots, Temp(t), Some(f), g);
      if g == f {
        assert Owners(s.slots, f) == {};
      } else {
        assert CountOk(s, g);
      }
    }
    forall k | k in s'.slots ensures TableOk(s, s', t, k) {
      assert k in s.slots ==> SlotOk(s, k);
    }
    SlotsKept(s, s', t);
    forall g | g in s'.farms ensures FarmOk(s', g) {
      if g != f {
        assert FarmOk(s, g);
        if s.farms[g].charge.Some? {
          assert CallSame(s, s', s.farms[g].charge.value);
        }
      }
    }
  }

  lemma FirstOwn(s: State, t: Id, out: Id, f: Id)
    requires t in s.calls && s.calls[t].phase == Opened(out, f) && f in s.farms && ObjectsOk(s)
    requires PhaseOk(s, t, s.calls[t].phase, s.calls[t].was)
    ensures Fixed(s, ControlMade(s, t, out, f), t) && CallOk(ControlMade(s, t, out, f), t)
  {
    assert ObjectOk(s, out);
  }

  lemma FirstKeeps(s: State, t: Id, out: Id, f: Id)
    requires Inv(s) && t in s.calls && s.calls[t].phase == Opened(out, f) && f in s.farms
    ensures Inv(ControlMade(s, t, out, f))
  {
    Facts(s, t);
    FirstFrame(s, t, out, f);
    FirstTables(s, t, out, f);
    FirstOwn(s, t, out, f);
    FixedKeeps(s, ControlMade(s, t, out, f), t);
  }

  lemma CopyFrame(s: State, t: Id, f: Id, out: Id, h: Id)
    requires t in s.calls && f in s.references && f in s.farms && s.farms[f].charge == None
    ensures Frame(s, RefCopied(s, t, f, out, h), t, {out})
  {
  }

  lemma CopyTables(s: State, t: Id, f: Id, out: Id, from: Id, h: Id)
    requires t in s.calls && s.calls[t].phase == Attached(out, from, h) && f in s.references
    requires Counted(s) && SlotsOk(s) && FarmsOk(s)
    ensures var s' := RefCopied(s, t, f, out, h); Counted(s') && SlotsOk(s') && FarmsOk(s')
  {
    var s' := RefCopied(s, t, f, out, h);
    NoTemp(s, t);
    forall g | g in s'.references ensures CountOk(s', g) {
      OwnersPut(s.slots, Temp(t), Some(f), g);
      assert CountOk(s, g);
    }
    forall k | k in s'.slots ensures TableOk(s, s', t, k) {
      assert k in s.slots ==> SlotOk(s, k);
    }
    SlotsKept(s, s', t);
    FarmsKept(s, s', t);
  }

  lemma CopyOwn(s: State, t: Id, f: Id, out: Id, from: Id, h: Id)
    requires t in s.calls && s.calls[t].phase == Attached(out, from, h) && f in s.references && ObjectsOk(s)
    requires PhaseOk(s, t, s.calls[t].phase, s.calls[t].was) && s.slots[Member(from)] == Some(f)
    ensures Fixed(s, RefCopied(s, t, f, out, h), t) && CallOk(RefCopied(s, t, f, out, h), t)
  {
    assert ObjectOk(s, out);
  }

  lemma CopyKeeps(s: State, t: Id, f: Id, out: Id, from: Id, h: Id)
    requires Inv(s) && t in s.calls && s.calls[t].phase == Attached(out, from, h) && f in s.references
    requires Member(from) in s.slots && s.slots[Member(from)] == Some(f)
    ensures Inv(RefCopied(s, t, f, out, h))
  {
    Facts(s, t);
    NamedFarm(s, Member(from), f);
    CopyFrame(s, t, f, out, h);
    CopyTables(s, t, f, out, from, h);
    CopyOwn(s, t, f, out, from, h);
    FixedKeeps(s, RefCopied(s, t, f, out, h), t);
  }

  /** A Farm that some reference names is open and nobody's charge. */
  lemma NamedFarm(s: State, k: Slot, f: Id)
    requires Counted(s) && SlotsOk(s) && FarmsOk(s) && CallsOk(s) && k in s.slots && s.slots[k] == Some(f)
    ensures f in s.references && f in s.farms && s.farms[f] == Farm(0, None) && s.references[f] > 0
  {
    assert SlotOk(s, k) && CountOk(s, f) && k in Owners(s.slots, f) && FarmOk(s, f);
  }

  // Moves and swaps.

  lemma TakeFrame(s: State, t: Id, src: Id, ph: Phase, touched: set<Id>)
    requires t in s.calls && Member(src) in s.slots && src in touched
    ensures Frame(s, RefTaken(s, t, src, ph), t, touched)
  {
  }

  lemma TakeTables(s: State, t: Id, dst: Id, src: Id, n: Then)
    requires t in s.calls && s.calls[t].phase == Taking(dst, src) && Member(src) in s.slots
    requires Counted(s) && SlotsOk(s) && FarmsOk(s)
    ensures Counted(RefTaken(s, t, src, Swapping(dst, n))) && SlotsOk(RefTaken(s, t, src, Swapping(dst, n)))
    ensures FarmsOk(RefTaken(s, t, src, Swapping(dst, n)))
  {
    var s' := RefTaken(s, t, src, Swapping(dst, n));
    NoTemp(s, t);
    forall g | g in s'.references ensures CountOk(s', g) {
      OwnersPut(s.slots, Temp(t), s.slots[Member(src)], g);
      OwnersPut(s.slots[Temp(t) := s.slots[Member(src)]], Member(src), None, g);
      assert CountOk(s, g);
    }
    forall k | k in s'.slots ensures TableOk(s, s', t, k) {
      assert SlotOk(s, Member(src)) && (k in s.slots ==> SlotOk(s, k));
    }
    SlotsKept(s, s', t);
    FarmsKept(s, s', t);
  }

  lemma TakeOwn(s: State, t: Id, dst: Id, src: Id, n: Then)
    requires t in s.calls && s.calls[t].phase == Taking(dst, src) && dst in s.objects && Member(src) in s.slots
    requires ObjectsOk(s)
    requires n == Transfer(dst, src)
    requires PhaseOk(s, t, s.calls[t].phase, s.calls[t].was)
    ensures Fixed(s, RefTaken(s, t, src, Swapping(dst, n)), t) && CallOk(RefTaken(s, t, src, Swapping(dst, n)), t)
  {
    assert ObjectOk(s, dst) && ObjectOk(s, src);
  }

  lemma TakeKeeps(s: State, t: Id, dst: Id, src: Id, n: Then)
    requires Inv(s) && t in s.calls && s.calls[t].phase == Taking(dst, src) && dst in s.objects
    requires Member(src) in s.slots
    requires n == Transfer(dst, src)
    ensures Inv(RefTaken(s, t, src, Swapping(dst, n)))
  {
    Facts(s, t);
    TakeFrame(s, t, src, Swapping(dst, n), {dst, src});
    TakeTables(s, t, dst, src, n);
    TakeOwn(s, t, dst, src, n);
    FixedKeeps(s, RefTaken(s, t, src, Swapping(dst, n)), t);
  }

  lemma SwapFrame(s: State, t: Id, dst: Id, n: Then, touched: set<Id>)
    requires t in s.calls && Temp(t) in s.slots && Member(dst) in s.slots && dst in touched
    ensures Frame(s, RefSwapped(s, t, dst, n), t, touched)
  {
  }

  lemma SwapTables(s: State, t: Id, dst: Id, n: Then)
    requires t in s.calls && s.calls[t].phase == Swapping(dst, n) && Temp(t) in s.slots && Member(dst) in s.slots
    requires Counted(s) && SlotsOk(s) && FarmsOk(s)
    ensures Counted(RefSwapped(s, t, dst, n)) && SlotsOk(RefSwapped(s, t, dst, n)) && FarmsOk(RefSwapped(s, t, dst, n))
  {
    var s' := RefSwapped(s, t, dst, n);
    forall g | g in s'.references ensures CountOk(s', g) {
      OwnersPut(s.slots, Temp(t), s.slots[Member(dst)], g);
      OwnersPut(s.slots[Temp(t) := s.slots[Member(dst)]], Member(dst), s.slots[Temp(t)], g);
      assert CountOk(s, g);
    }
    forall k | k in s'.slots ensures TableOk(s, s', t, k) {
      assert SlotOk(s, Member(dst)) && SlotOk(s, Temp(t)) && SlotOk(s, k);
    }
    SlotsKept(s, s', t);
    FarmsKept(s, s', t);
  }

  lemma SwapOwn(s: State, t: Id, dst: Id, n: Then)
    requires t in s.calls && s.calls[t].phase == Swapping(dst, n) && Temp(t) in s.slots && Member(dst) in s.slots
    requires ObjectsOk(s) && PhaseOk(s, t, s.calls[t].phase, s.calls[t].was)
    ensures Fixed(s, RefSwapped(s, t, dst, n), t) && CallOk(RefSwapped(s, t, dst, n), t)
  {
    assert ObjectOk(s, dst);
  }

  lemma SwapKeeps(s: State, t: Id, dst: Id, n: Then)
    requires Inv(s) && t in s.calls && s.calls[t].phase == Swapping(dst, n) && Temp(t) in s.slots
    requires Member(dst) in s.slots
    ensures Inv(RefSwapped(s, t, dst, n))
  {
    Facts(s, t);
    SwapFrame(s, t, dst, n, Exclusive(s.calls[t].phase));
    SwapTables(s, t, dst, n);
    SwapOwn(s, t, dst, n);
    FixedKeeps(s, RefSwapped(s, t, dst, n), t);
  }

  // Drops.

  /** The slot is gone, and with a member its object; references and charges are the caller's affair. */
  ghost predicate Dropped(s: State, s': State, t: Id, k: Slot, n: Then) {
    && t in s.calls && t in s'.calls && k in s.slots && s.calls[t].phase == Dropping(k, n)
    && s'.calls == s.calls[t := s'.calls[t]] && s'.calls[t].was == s.calls[t].was
    && s'.objects == Without(s, k) && s'.slots == s.slots - {k} && s'.handles == s.handles
    && !HasTemp(t, s'.calls[t].phase)
    && Carried(s'.calls[t].phase) == Carried(s.calls[t].phase)
    && Exclusive(s'.calls[t].phase) == ThenUses(n) && Shared(s'.calls[t].phase) == {}
  }

  lemma DropSlots(s: State, s': State, t: Id, k: Slot, n: Then)
    requires Dropped(s, s', t, k, n) && SlotsOk(s) && s'.references.Keys == s.references.Keys
    requires PhaseOk(s, t, s.calls[t].phase, s.calls[t].was)
    ensures SlotsOk(s')
  {
    forall j | j in s'.slots ensures TableOk(s, s', t, j) {
      assert SlotOk(s, j);
    }
    SlotsKept(s, s', t);
  }

  lemma DropFrame(s: State, s': State, t: Id, k: Slot, n: Then)
    requires Dropped(s, s', t, k, n) && PhaseOk(s, t, s.calls[t].phase, s.calls[t].was)
    ensures ObjectsSame(s, s', Exclusive(s.calls[t].phase)) && TempsSame(s, s', t)
    ensures HandlesSame(s, s', t, Exclusive(s.calls[t].phase)) && CallsSame(s, s', t)
  {
  }

  lemma DropObject(s: State, s': State, t: Id, k: Slot, n: Then, o: Id)
    requires Dropped(s, s', t, k, n) && ObjectsOk(s) && o in Exclusive(s.calls[t].phase)
    requires PhaseOk(s, t, s.calls[t].phase, s.calls[t].was)
    ensures OwnObjectOk(s', t, o)
  {
    assert o in s'.objects ==> ObjectOk(s, o);
  }

  lemma DropHandle(s: State, s': State, t: Id, k: Slot, n: Then, h: Id)
    requires Dropped(s, s', t, k, n) && HandlesOk(s) && PhaseOk(s, t, s.calls[t].phase, s.calls[t].was)
    ensures OwnHandleOk(s', t, Exclusive(s.calls[t].phase), h)
  {
    assert h in s.handles ==> HandleOk(s, h);
  }

  lemma DropThen(s: State, s': State, t: Id, k: Slot, n: Then)
    requires Dropped(s, s', t, k, n) && PhaseOk(s, t, s.calls[t].phase, s.calls[t].was)
    ensures ThenOk(s', t, n, Target(n), s'.calls[t].was)
  {
  }

  lemma DropKeeps(s: State, s': State, t: Id, k: Slot, n: Then)
    requires Inv(s) && Dropped(s, s', t, k, n) && s'.references.Keys == s.references.Keys
    requires FarmsSame(s, s', t) && Counted(s') && FarmsOk(s') && CallOk(s', t)
    ensures Inv(s')
  {
    Facts(s, t);
    DropSlots(s, s', t, k, n);
    DropFrame(s, s', t, k, n);
    forall o | o in Exclusive(s.calls[t].phase) ensures OwnObjectOk(s', t, o) {
      DropObject(s, s', t, k, n, o);
    }
    forall h ensures OwnHandleOk(s', t, Exclusive(s.calls[t].phase), h) {
      DropHandle(s, s', t, k, n, h);
    }
    Reassemble(s, s', t);
  }

  lemma DropShape(s: State, t: Id, k: Slot, f: Id, n: Then)
    requires t in s.calls && s.calls[t].phase == Dropping(k, n) && k in s.slots
    requires f in s.references && s.references[f] > 0 && f in s.farms
    ensures Dropped(s, RefDropped(s, t, k, f, n), t, k, n) && Dropped(s, LastDropped(s, t, k, f, n), t, k, n)
  {
  }

  lemma NullDropCall(s: State, t: Id, k: Slot, n: Then)
    requires t in s.calls && s.calls[t].phase == Dropping(k, n) && k in s.slots && s.slots[k] == None
    requires PhaseOk(s, t, s.calls[t].phase, s.calls[t].was)
    ensures Dropped(s, NullDropped(s, t, k, n), t, k, n) && CallOk(NullDropped(s, t, k, n), t)
  {
    DropThen(s, NullDropped(s, t, k, n), t, k, n);
  }

  lemma NullDropTables(s: State, t: Id, k: Slot, n: Then)
    requires t in s.calls && s.calls[t].phase == Dropping(k, n) && k in s.slots && s.slots[k] == None
    requires Counted(s) && FarmsOk(s)
    ensures var s' := NullDropped(s, t, k, n); Counted(s') && FarmsOk(s') && FarmsSame(s, s', t)
  {
    var s' := NullDropped(s, t, k, n);
    forall g | g in s'.references ensures CountOk(s', g) {
      OwnersDrop(s.slots, k, g);
      assert CountOk(s, g);
    }
    FarmsKept(s, s', t);
  }

  lemma NullDropKeeps(s: State, t: Id, k: Slot, n: Then)
    requires Inv(s) && t in s.calls && s.calls[t].phase == Dropping(k, n) && k in s.slots && s.slots[k] == None
    ensures Inv(NullDropped(s, t, k, n))
  {
    var s' := NullDropped(s, t, k, n);
    Facts(s, t);
    NullDropTables(s, t, k, n);
    NullDropCall(s, t, k, n);
    DropKeeps(s, s', t, k, n);
  }

  lemma RefDropCall(s: State, t: Id, k: Slot, f: Id, n: Then)
    requires t in s.calls && s.calls[t].phase == Dropping(k, n) && k in s.slots && s.slots[k] == Some(f)
    requires f in s.references && s.references[f] > 1 && f in s.farms && s.farms[f] == Farm(0, None)
    requires PhaseOk(s, t, s.calls[t].phase, s.calls[t].was)
    ensures Dropped(s, RefDropped(s, t, k, f, n), t, k, n) && CallOk(RefDropped(s, t, k, f, n), t)
  {
    DropShape(s, t, k, f, n);
    DropThen(s, RefDropped(s, t, k, f, n), t, k, n);
  }

  lemma RefDropTables(s: State, t: Id, k: Slot, f: Id, n: Then)
    requires t in s.calls && s.calls[t].phase == Dropping(k, n) && k in s.slots && s.slots[k] == Some(f)
    requires f in s.references && s.references[f] > 1 && f in s.farms && s.farms[f] == Farm(0, None)
    requires Counted(s) && FarmsOk(s)
    ensures Counted(RefDropped(s, t, k, f, n)) && FarmsOk(RefDropped(s, t, k, f, n))
    ensures FarmsSame(s, RefDropped(s, t, k, f, n), t)
  {
    var s' := RefDropped(s, t, k, f, n);
    DropCounts(s, s', k, f);
    FarmsKept(s, s', t);
  }

  lemma RefDropKeeps(s: State, t: Id, k: Slot, f: Id, n: Then)
    requires Inv(s) && t in s.calls && s.calls[t].phase == Dropping(k, n) && k in s.slots && s.slots[k] == Some(f)
    requires f in s.references && s.references[f] > 1
    ensures Inv(RefDropped(s, t, k, f, n))
  {
    var s' := RefDropped(s, t, k, f, n);
    Facts(s, t);
    NamedFarm(s, k, f);
    RefDropTables(s, t, k, f, n);
    RefDropCall(s, t, k, f, n);
    DropKeeps(s, s', t, k, n);
  }

  lemma DropCounts(s: State, s': State, k: Slot, f: Id)
    requires Counted(s) && k in s.slots && s.slots[k] == Some(f) && f in s.references && s.references[f] > 0
    requires s'.slots == s.slots - {k} && s'.references == s.references[f := s.references[f] - 1]
    requires s'.farms.Keys == s.farms.Keys
    ensures Counted(s')
  {
    forall g | g in s'.references ensures CountOk(s', g) {
      OwnersDrop(s.slots, k, g);
      assert CountOk(s, g);
    }
  }

  lemma LastFarms(s: State, s': State, t: Id, f: Id, n: Then)
    requires FarmsOk(s) && t in s.calls && t in s'.calls && CallsSame(s, s', t)
    requires f in s.farms && f in s.references && s'.farms == s.farms[f := Farm(0, Some(t))]
    requires s'.references == s.references[f := 0]
    requires Charge(s.calls[t].phase) == None && s'.calls[t].phase == Destroying(f, n)
    ensures FarmsOk(s')
  {
    forall g | g in s'.farms ensures FarmOk(s', g) {
      if g != f {
        assert FarmOk(s, g);
        if s.farms[g].charge.Some? {
          assert CallSame(s, s', s.farms[g].charge.value);
        }
      }
    }
  }

  lemma LastDropCall(s: State, t: Id, k: Slot, f: Id, n: Then)
    requires t in s.calls && s.calls[t].phase == Dropping(k, n) && k in s.slots && s.slots[k] == Some(f)
    requires f in s.references && s.references[f] == 1 && f in s.farms && s.farms[f] == Farm(0, None)
    requires PhaseOk(s, t, s.calls[t].phase, s.calls[t].was)
    ensures Dropped(s, LastDropped(s, t, k, f, n), t, k, n) && CallOk(LastDropped(s, t, k, f, n), t)
  {
    DropShape(s, t, k, f, n);
    DropThen(s, LastDropped(s, t, k, f, n), t, k, n);
  }

  lemma LastDropTables(s: State, t: Id, k: Slot, f: Id, n: Then)
    requires t in s.calls && s.calls[t].phase == Dropping(k, n) && k in s.slots && s.slots[k] == Some(f)
    requires f in s.references && s.references[f] == 1 && f in s.farms && s.farms[f] == Farm(0, None)
    requires Counted(s) && FarmsOk(s)
    ensures Counted(LastDropped(s, t, k, f, n)) && FarmsOk(LastDropped(s, t, k, f, n))
    ensures FarmsSame(s, LastDropped(s, t, k, f, n), t)
  {
    var s' := LastDropped(s, t, k, f, n);
    DropCounts(s, s', k, f);
    LastFarms(s, s', t, f, n);
  }

  /** The last owner takes charge of the Farm. */
  lemma LastDropKeeps(s: State, t: Id, k: Slot, f: Id, n: Then)
    requires Inv(s) && t in s.calls && s.calls[t].phase == Dropping(k, n) && k in s.slots && s.slots[k] == Some(f)
    requires f in s.references && s.references[f] == 1 && f in s.farms
    ensures Inv(LastDropped(s, t, k, f, n))
  {
    var s' := LastDropped(s, t, k, f, n);
    Facts(s, t);
    NamedFarm(s, k, f);
    LastDropTables(s, t, k, f, n);
    LastDropCall(s, t, k, f, n);
    DropKeeps(s, s', t, k, n);
  }
}
