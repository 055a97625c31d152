/** Steps that create, count and destroy Farms keep the invariant. */
module OwnershipReferences {
  import opened Options
  import opened Ownership
  import opened OwnershipInvariant
  import opened OwnershipSteps

  // Counting owners.

  function Hits(slots: map<Slot, Option<Id>>, k: Slot, f: Id): nat {
    if k in slots && slots[k] == Some(f) then 1 else 0
  }

  lemma OwnersPut(slots: map<Slot, Option<Id>>, k: Slot, v: Option<Id>, f: Id)
    ensures |Owners(slots[k := v], f)| + Hits(slots, k, f) == |Owners(slots, f)| + (if v == Some(f) then 1 else 0)
  {
    var rest := Owners(slots, f) - {k};
    assert Owners(slots, f) == if Hits(slots, k, f) == 1 then rest + {k} else rest;
    assert Owners(slots[k := v], f) == if v == Some(f) then rest + {k} else rest;
  }

  lemma OwnersDrop(slots: map<Slot, Option<Id>>, k: Slot, f: Id)
    ensures |Owners(slots - {k}, f)| + Hits(slots, k, f) == |Owners(slots, f)|
  {
    var rest := Owners(slots, f) - {k};
    assert Owners(slots, f) == if Hits(slots, k, f) == 1 then rest + {k} else rest;
    assert Owners(slots - {k}, f) == rest;
  }

  lemma NoOwner(s: State, f: Id)
    requires Counted(s) && SlotsOk(s)
    requires f !in s.farms || f !in s.references || s.references[f] == 0
    ensures f !in s.farms ==> f !in s.references
    ensures forall k :: k in s.slots ==> s.slots[k] != Some(f)
  {
    assert f in s.references ==> CountOk(s, f);
    forall k | k in s.slots ensures s.slots[k] != Some(f) {
      assert SlotOk(s, k);
      assert k in Owners(s.slots, f) <==> s.slots[k] == Some(f);
    }
  }

  // Objects and handles stay as they are.

  ghost predicate Released(s: State, s': State, t: Id)
    requires t in s.calls && t in s'.calls
  {
    forall o :: o in Exclusive(s.calls[t].phase) && o !in Exclusive(s'.calls[t].phase) ==> Settled(s', o)
  }

  ghost predicate Fixed(s: State, s': State, t: Id) {
    && Narrowed(s, s', t) && s'.calls == s.calls[t := s'.calls[t]]
    && s'.objects == s.objects && s'.handles == s.handles
    && Carried(s'.calls[t].phase) == Carried(s.calls[t].phase)
    && (forall o :: Member(o) in s.slots ==> Member(o) in s'.slots)
    && Released(s, s', t)
  }

  lemma FixedOwn(s: State, s': State, t: Id)
    requires ObjectsOk(s) && HandlesOk(s) && Fixed(s, s', t)
    ensures forall o :: o in Exclusive(s.calls[t].phase) ==> OwnObjectOk(s', t, o)
    ensures forall h :: OwnHandleOk(s', t, Exclusive(s.calls[t].phase), h)
  {
    forall o | o in Exclusive(s.calls[t].phase) ensures OwnObjectOk(s', t, o) {
      assert o in s.objects ==> ObjectOk(s, o);
    }
    forall h ensures OwnHandleOk(s', t, Exclusive(s.calls[t].phase), h) {
      assert h in s.handles ==> HandleOk(s, h);
    }
  }

  lemma FixedKeeps(s: State, s': State, t: Id)
    requires Inv(s) && Fixed(s, s', t) && Frame(s, s', t, Exclusive(s.calls[t].phase))
    requires CallOk(s', t) && Counted(s') && SlotsOk(s') && FarmsOk(s')
    ensures Inv(s')
  {
    FixedOwn(s, s', t);
    Reassemble(s, s', t);
  }

  // Farms that no reference names.

  ghost predicate FarmsExcept(s: State, s': State, f: Id) {
    && (forall g :: g != f ==> (g in s.farms <==> g in s'.farms) && (g in s.references <==> g in s'.references))
    && (forall g :: g != f && g in s.farms ==> s'.farms[g] == s.farms[g])
    && (forall g :: g != f && g in s.references ==> s'.references[g] == s.references[g])
  }

  /** Only the bookkeeping of Farm `f`, which no slot names, has changed, and that for the better. */
  ghost predicate Lone(s: State, s': State, t: Id, f: Id) {
    && Fixed(s, s', t) && s'.slots == s.slots && FarmsExcept(s, s', f)
    && !HasTemp(t, s'.calls[t].phase) && !HasTemp(t, s.calls[t].phase)
    && Charge(s.calls[t].phase) in {None, Some(f)}
    && (f in s.farms ==> s.farms[f].charge == Some(t))
    && (f !in s.farms || f !in s.references || s.references[f] == 0)
    && f in s'.farms && FarmOk(s', f) && (f in s'.references ==> s'.references[f] == 0)
  }

  lemma LoneTables(s: State, s': State, t: Id, f: Id)
    requires Lone(s, s', t, f) && Counted(s) && SlotsOk(s) && FarmsOk(s)
    ensures Counted(s') && SlotsOk(s') && FarmsOk(s')
  {
    NoOwner(s, f);
    forall g | g in s'.references ensures CountOk(s', g) {
      if g == f {
        assert Owners(s'.slots, f) == {};
      } else {
        assert CountOk(s, g);
      }
    }
    forall k | k in s'.slots ensures SlotOk(s', k) {
      assert SlotOk(s, k);
    }
    forall g | g in s'.farms ensures FarmOk(s', g) {
      assert g != f ==> FarmOk(s, g);
    }
  }

  lemma LoneFrame(s: State, s': State, t: Id, f: Id, touched: set<Id>)
    requires Lone(s, s', t, f)
    ensures Frame(s, s', t, touched)
  {
  }

  lemma LoneKeeps(s: State, s': State, t: Id, f: Id)
    requires Inv(s) && Lone(s, s', t, f) && CallOk(s', t)
    ensures Inv(s')
  {
    LoneTables(s, s', t, f);
    LoneFrame(s, s', t, f, Exclusive(s.calls[t].phase));
    FixedKeeps(s, s', t);
  }

  lemma MadeLone(s: State, t: Id, out: Id, f: Id)
    requires t in s.calls && s.calls[t].phase == Opening(out) && f !in s.farms && f !in s.references
    requires PhaseOk(s, t, s.calls[t].phase, s.calls[t].was) && ObjectsOk(s)
    requires Member(out) in s.slots && s.slots[Member(out)].None?
    ensures Lone(s, FarmMade(s, t, out, f), t, f) && CallOk(FarmMade(s, t, out, f), t)
  {
    assert ObjectOk(s, out);
  }

  lemma FarmMadeKeeps(s: State, t: Id, out: Id, f: Id)
    requires Inv(s) && t in s.calls && s.calls[t].phase == Opening(out) && f !in s.farms
    requires Member(out) in s.slots && s.slots[Member(out)].None?
    ensures Inv(FarmMade(s, t, out, f))
  {
    Facts(s, t);
    NoOwner(s, f);
    MadeLone(s, t, out, f);
    LoneKeeps(s, FarmMade(s, t, out, f), t, f);
  }

  lemma RefusedLone(s: State, t: Id, out: Id, f: Id)
    requires t in s.calls && s.calls[t].phase == Refused(out, f) && f in s.farms && ObjectsOk(s)
    requires PhaseOk(s, t, s.calls[t].phase, s.calls[t].was)
    ensures var s' := FarmDestroyed(s, t, f, None, Done(AllocationFailed)); Lone(s, s', t, f) && CallOk(s', t)
  {
    assert ObjectOk(s, out);
  }

  lemma RefusedKeeps(s: State, t: Id, out: Id, f: Id)
    requires Inv(s) && t in s.calls && s.calls[t].phase == Refused(out, f) && f in s.farms
    ensures Inv(FarmDestroyed(s, t, f, None, Done(AllocationFailed)))
  {
    Facts(s, t);
    RefusedLone(s, t, out, f);
    LoneKeeps(s, FarmDestroyed(s, t, f, None, Done(AllocationFailed)), t, f);
  }

  lemma ThenSame(s: State, s': State, t: Id, n: Then, k: Slot, was: Contents)
    requires ThenOk(s, t, n, k, was)
    requires s'.objects == s.objects && s'.slots == s.slots && s'.handles == s.handles
    ensures ThenOk(s', t, n, k, was)
  {
  }

  lemma DestroyLone(s: State, t: Id, f: Id, n: Then)
    requires t in s.calls && s.calls[t].phase == Destroying(f, n) && f in s.farms && ObjectsOk(s)
    requires PhaseOk(s, t, s.calls[t].phase, s.calls[t].was)
    ensures var s' := FarmDestroyed(s, t, f, Some(t), Deleting(f, n)); Lone(s, s', t, f) && CallOk(s', t)
  {
    ThenSame(s, FarmDestroyed(s, t, f, Some(t), Deleting(f, n)), t, n, Target(n), s.calls[t].was);
  }

  lemma DestroyKeeps(s: State, t: Id, f: Id, n: Then)
    requires Inv(s) && t in s.calls && s.calls[t].phase == Destroying(f, n) && f in s.farms
    ensures Inv(FarmDestroyed(s, t, f, Some(t), Deleting(f, n)))
  {
    Facts(s, t);
    DestroyLone(s, t, f, n);
    LoneKeeps(s, FarmDestroyed(s, t, f, Some(t), Deleting(f, n)), t, f);
  }

  lemma DeleteLone(s: State, t: Id, f: Id, n: Then)
    requires t in s.calls && s.calls[t].phase == Deleting(f, n) && f in s.farms && ObjectsOk(s)
    requires PhaseOk(s, t, s.calls[t].phase, s.calls[t].was)
    ensures Lone(s, ControlDeleted(s, t, f, n), t, f) && CallOk(ControlDeleted(s, t, f, n), t)
  {
    ThenSame(s, ControlDeleted(s, t, f, n), t, n, Target(n), s.calls[t].was);
  }

  lemma DeleteKeeps(s: State, t: Id, f: Id, n: Then)
    requires Inv(s) && t in s.calls && s.calls[t].phase == Deleting(f, n) && f in s.farms
    ensures Inv(ControlDeleted(s, t, f, n))
  {
    Facts(s, t);
    DeleteLone(s, t, f, n);
    LoneKeeps(s, ControlDeleted(s, t, f, n), t, f);
  }
}
