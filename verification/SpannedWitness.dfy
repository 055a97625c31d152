/** Two executions of the span of any length in which S attaches: one that runs the threads one after
    another, and one whose later reads see nothing of the interior. */
module SpannedWitness {
  import opened Relations
  import opened Rc11
  import opened Rc11Coherence
  import opened SpannedAttach

  /** The event that writes a location. */
  function Writer(l: Loc): Role {
    match l
    case Sq(e) => PSq(e)
    case Es(e) => PEs(e)
    case Sent => PSent
    case Sd0 => FAdd
    case Live0 => DCas
  }

  /** The pure reads that see their location's write, all of them when the threads run one after
      another; all others, and the updates, see the initial value. */
  predicate Sees(serial: bool, role: Role) {
    role.FSent? || role.DEs? || role.DSd? || role.SLive? || role.SCand? || (serial && !IsWrite(role))
  }

  predicate IsRead(role: Role) {
    !IsWrite(role) || role.FAdd? || role.DCas?
  }

  lemma WriterFacts(v: Variant, serial: bool, role: Role)
    requires v.n >= 1 && Valid(v, role)
    ensures var w := Writer(EventOf(v, role).loc);
      && Valid(v, w) && IsWrite(w) && EventOf(v, w).loc == EventOf(v, role).loc
      && (IsWrite(role) ==> w == role)
      && (Sees(serial, role) ==> At(v, w) < At(v, role))
    ensures IsWrite(role) <==> EventOf(v, role).kind != R
    ensures IsRead(role) <==> EventOf(v, role).kind != W
  {
  }

  function WitnessRf(v: Variant, serial: bool, role: Role): Src
    requires v.n >= 1 && Valid(v, role)
  {
    WriterFacts(v, serial, role);
    if Sees(serial, role) then Ev(At(v, Writer(EventOf(v, role).loc))) else Init
  }

  function WitnessOrder(v: Variant, role: Role): seq<Src>
    requires v.n >= 1 && Valid(v, role)
  {
    WriterFacts(v, false, role);
    [Init, Ev(At(v, Writer(EventOf(v, role).loc)))]
  }

  function OrderOf(v: Variant, l: Loc): seq<Src>
    requires v.n >= 1
  {
    if Valid(v, Writer(l)) then [Init, Ev(At(v, Writer(l)))] else [Init]
  }

  function Witness(v: Variant, serial: bool): Exec
    requires v.n >= 1
  {
    Exec(Program(v),
         map r: nat | r < Size(v) && IsRead(RoleAt(v, r)) :: WitnessRf(v, serial, RoleAt(v, r)),
         map l | l in (set i: nat | i < Size(v) :: EventOf(v, RoleAt(v, i)).loc) :: OrderOf(v, l))
  }

  // All that is used of `Witness(v, serial)`, event by event.

  ghost predicate KnownRole(v: Variant, serial: bool, x: Exec, role: Role)
    requires v.n >= 1 && Valid(v, role)
  {
    var i, l := At(v, role), EventOf(v, role).loc;
    && l in x.mo && x.mo[l] == WitnessOrder(v, role)
    && (i in x.rf <==> IsRead(role))
    && (i in x.rf ==> x.rf[i] == WitnessRf(v, serial, role))
  }

  ghost predicate IsWitness(v: Variant, serial: bool, x: Exec) {
    && IsProgram(v, x.ev)
    && (forall r :: r in x.rf ==> r < |x.ev|)
    && forall role :: Valid(v, role) ==> KnownRole(v, serial, x, role)
  }

  lemma WitnessIsWitness(v: Variant, serial: bool)
    requires v.n >= 1
    ensures IsWitness(v, serial, Witness(v, serial))
  {
    var x := Witness(v, serial);
    ProgramIsProgram(v, x.ev);
    forall role | Valid(v, role) ensures KnownRole(v, serial, x, role) {
      AtInjective(v, role, RoleAt(v, At(v, role)));
      WriterFacts(v, serial, role);
      assert EventOf(v, RoleAt(v, At(v, role))).loc == EventOf(v, role).loc;
    }
  }

  lemma Known(v: Variant, serial: bool, x: Exec, i: nat) returns (role: Role)
    requires IsWitness(v, serial, x) && i < |x.ev|
    ensures Valid(v, role) && At(v, role) == i && x.ev[i] == EventOf(v, role) && KnownRole(v, serial, x, role)
  {
    role := RoleOf(v, x.ev, i);
  }

  // Well-formedness.

  lemma WitnessOrdered(v: Variant, serial: bool, x: Exec, i: nat)
    requires IsWitness(v, serial, x) && i < |x.ev|
    ensures x.ev[i].loc in x.mo && Ordered(x, i)
  {
    var role := Known(v, serial, x, i);
    WriterFacts(v, serial, role);
    var l := x.ev[i].loc;
    var w := Writer(l);
    assert x.ev[At(v, w)] == EventOf(v, w);
    WriterFacts(v, serial, w);
    forall j | 0 <= j < |x.ev| && Writes(x, j) && x.ev[j].loc == l ensures Ev(j) in x.mo[l] {
      var other := Known(v, serial, x, j);
      WriterFacts(v, serial, other);
      assert x.mo[l][1] == Ev(j);
    }
  }

  lemma WitnessSourced(v: Variant, serial: bool, x: Exec, r: nat)
    requires IsWitness(v, serial, x) && r < |x.ev|
    ensures r in x.rf <==> Reads(x, r)
    ensures Sourced(x, r) && (r in x.rf && x.rf[r].Ev? ==> x.rf[r].i < r)
  {
    var role := Known(v, serial, x, r);
    WriterFacts(v, serial, role);
    var w := Writer(EventOf(v, role).loc);
    WriterFacts(v, serial, w);
    assert x.ev[At(v, w)] == EventOf(v, w);
  }

  lemma WitnessCandidate(v: Variant, serial: bool, x: Exec)
    requires IsWitness(v, serial, x)
    ensures Candidate(x)
  {
    forall i: nat | i < |x.ev| ensures x.ev[i].loc in x.mo && Ordered(x, i) {
      WitnessOrdered(v, serial, x, i);
    }
    forall r: nat ensures (r in x.rf <==> Reads(x, r)) && Sourced(x, r) {
      if r < |x.ev| {
        WitnessSourced(v, serial, x, r);
      }
    }
  }

  /** Positions: the one write of a location sits at 1. */
  lemma WitnessPos(v: Variant, serial: bool, x: Exec, role: Role)
    requires IsWitness(v, serial, x) && Candidate(x) && Valid(v, role)
    ensures x.ev[At(v, role)] == EventOf(v, role)
    ensures IsWrite(role) ==> Pos(x, At(v, role)) == 1
    ensures IsRead(role) ==> RfPos(x, At(v, role)) == if Sees(serial, role) then 1 else 0
  {
    var i := At(v, role);
    assert KnownRole(v, serial, x, role);
    WriterFacts(v, serial, role);
    assert x.ev[i] == EventOf(v, role);
    if IsWrite(role) {
      PosFacts(x, i);
    }
    if IsRead(role) {
      RfPosFacts(x, i);
    }
  }

  // Values.

  function WrittenValue(v: Variant, role: Role): int
    requires v.n >= 1 && Valid(v, role)
  {
    match EventOf(v, role).op
    case Store(value) => value
    case Increment => 1
    case Cas => 0
    case NoWrite => 0
  }

  function ReadValue(v: Variant, serial: bool, role: Role): int
    requires v.n >= 1 && Valid(v, role) && IsRead(role)
  {
    WriterFacts(v, serial, role);
    var l := EventOf(v, role).loc;
    if Sees(serial, role) then WrittenValue(v, Writer(l)) else InitialValue(l)
  }

  function WrittenValues(v: Variant): map<nat, int>
    requires v.n >= 1
  {
    map i: nat | i < Size(v) :: WrittenValue(v, RoleAt(v, i))
  }

  function ReadValues(v: Variant, serial: bool): map<nat, int>
    requires v.n >= 1
  {
    map i: nat | i < Size(v) && IsRead(RoleAt(v, i)) :: ReadValue(v, serial, RoleAt(v, i))
  }

  lemma ValuesAt(v: Variant, serial: bool, role: Role)
    requires v.n >= 1 && Valid(v, role)
    ensures IsRead(role) ==>
              At(v, role) in ReadValues(v, serial) && ReadValues(v, serial)[At(v, role)] == ReadValue(v, serial, role)
    ensures At(v, role) in WrittenValues(v) && WrittenValues(v)[At(v, role)] == WrittenValue(v, role)
  {
    AtInjective(v, role, RoleAt(v, At(v, role)));
  }

  lemma WitnessValued(v: Variant, serial: bool, x: Exec, i: nat)
    requires IsWitness(v, serial, x) && Candidate(x) && i < |x.ev|
    ensures Writes(x, i) ==> WriteValued(x, ReadValues(v, serial), WrittenValues(v), i)
    ensures Reads(x, i) ==> ReadValued(x, ReadValues(v, serial), WrittenValues(v), i)
  {
    var role := Known(v, serial, x, i);
    WriterFacts(v, serial, role);
    ValuesAt(v, serial, role);
    if Reads(x, i) {
      ValuesAt(v, serial, Writer(EventOf(v, role).loc));
    }
  }

  // Consistency.

  lemma WitnessAtomic(v: Variant, serial: bool, x: Exec)
    requires IsWitness(v, serial, x) && Candidate(x)
    ensures Atomic(x)
  {
    forall r | 0 <= r < |x.ev| && x.ev[r].kind == U ensures RfPos(x, r) == Pos(x, r) - 1 {
      var role := Known(v, serial, x, r);
      WriterFacts(v, serial, role);
      WitnessPos(v, serial, x, role);
    }
  }

  lemma SbAscends(v: Variant, a: Role, b: Role)
    requires v.n >= 1 && Valid(v, a) && Valid(v, b)
    requires EventOf(v, a).tid == EventOf(v, b).tid && EventOf(v, a).idx < EventOf(v, b).idx
    ensures At(v, a) < At(v, b)
  {
  }

  function Countdown(n: nat, i: nat): nat
    requires i < n
  {
    n - i
  }

  lemma WitnessNoThinAir(v: Variant, serial: bool, x: Exec)
    requires IsWitness(v, serial, x)
    ensures NoThinAir(x)
  {
    var g := Sb(x) + RfEdges(x);
    var rank := map i: nat | 0 <= i < |x.ev| :: Countdown(|x.ev|, i);
    forall e | e in g ensures e.0 in rank && e.1 in rank && rank[e.1] < rank[e.0] {
      if (e.0, e.1) in Sb(x) {
        var a := Known(v, serial, x, e.0);
        var b := Known(v, serial, x, e.1);
        SbAscends(v, a, b);
      } else {
        assert (e.0, e.1) in RfEdges(x);
        WitnessSourced(v, serial, x, e.1);
      }
    }
    RankedAcyclic(g, rank);
  }

  lemma WitnessExecution(v: Variant, serial: bool, x: Exec)
    requires IsWitness(v, serial, x)
    ensures Candidate(x) && Atomic(x) && NoThinAir(x)
    ensures Execution(v, x, ReadValues(v, serial), WrittenValues(v))
  {
    WitnessCandidate(v, serial, x);
    WitnessAtomic(v, serial, x);
    WitnessNoThinAir(v, serial, x);
    forall i: nat | i < |x.ev|
      ensures Writes(x, i) ==> WriteValued(x, ReadValues(v, serial), WrittenValues(v), i)
      ensures Reads(x, i) ==> ReadValued(x, ReadValues(v, serial), WrittenValues(v), i)
    {
      WitnessValued(v, serial, x, i);
    }
  }

  lemma SawValue(v: Variant, serial: bool, role: Role)
    requires v.n >= 1 && Valid(v, role) && IsRead(role)
    ensures Saw(v, ReadValues(v, serial), role, ReadValue(v, serial, role))
  {
    ValuesAt(v, serial, role);
  }

  lemma WitnessDischarges(v: Variant, serial: bool)
    requires v.n >= 1
    ensures var rv := ReadValues(v, serial); Saw(v, rv, FSent, 1) && Saw(v, rv, DEs, 1) && Saw(v, rv, DSd, 1)
  {
    SawValue(v, serial, FSent);
    SawValue(v, serial, DEs);
    SawValue(v, serial, DSd);
  }

  lemma WitnessAttaches(v: Variant, serial: bool)
    requires v.n >= 1
    ensures var rv := ReadValues(v, serial); Saw(v, rv, SLive, 0) && Saw(v, rv, SCand, 1)
  {
    SawValue(v, serial, SLive);
    SawValue(v, serial, SCand);
  }

  lemma WitnessScenario(v: Variant, serial: bool)
    requires v.n >= 1
    ensures Scenario(v, ReadValues(v, serial))
  {
    WitnessDischarges(v, serial);
    WitnessAttaches(v, serial);
  }

  // The threads one after another.

  /** Every edge of the serial execution goes forward. */
  lemma SerialAscends(v: Variant, x: Exec, a: nat, b: nat)
    requires IsWitness(v, true, x) && Candidate(x) && (a, b) in ScGraph(x)
    ensures a < b < |x.ev|
  {
    var r := Known(v, true, x, a);
    var s := Known(v, true, x, b);
    WriterFacts(v, true, r);
    WriterFacts(v, true, s);
    WitnessPos(v, true, x, r);
    WitnessPos(v, true, x, s);
    if (a, b) in Sb(x) {
      SbAscends(v, r, s);
    }
    if (a, b) in RfEdges(x) {
      WitnessSourced(v, true, x, b);
    }
  }

  lemma SerialSc(v: Variant, x: Exec)
    requires IsWitness(v, true, x) && Candidate(x)
    ensures SequentiallyConsistent(x)
  {
    var g := ScGraph(x);
    var rank := map i: nat | 0 <= i < |x.ev| :: Countdown(|x.ev|, i);
    forall e | e in g ensures e.0 in rank && e.1 in rank && rank[e.1] < rank[e.0] {
      SerialAscends(v, x, e.0, e.1);
    }
    RankedAcyclic(g, rank);
  }

  lemma SerialReads(v: Variant)
    requires v.n >= 1
    ensures AllInitialised(v, ReadValues(v, true)) && (v.fix ==> Validated(v, ReadValues(v, true)))
  {
    var rv := ReadValues(v, true);
    if v.fix {
      SawValue(v, true, SSucc);
    }
    forall e | 2 <= e <= v.n ensures Initialised(v, rv, e) {
      SawValue(v, true, SEs(e));
      SawValue(v, true, SSq(e));
    }
  }

  lemma SerialConsistent(v: Variant, x: Exec)
    requires IsWitness(v, true, x)
    ensures Execution(v, x, ReadValues(v, true), WrittenValues(v)) && Consistent(x) && SequentiallyConsistent(x)
  {
    WitnessExecution(v, true, x);
    SerialSc(v, x);
    ScImpliesConsistent(x);
  }

  /** Attaching stays possible for every span and every variant, the repaired ones included: running
      the threads one after another is a consistent execution in which S attaches, passes the
      successor acquire where there is one, and reads the whole interior initialised. */
  lemma AttachPossible(v: Variant) returns (x: Exec, rv: map<nat, int>, wv: map<nat, int>)
    requires v.n >= 1
    ensures Execution(v, x, rv, wv) && Consistent(x) && SequentiallyConsistent(x)
    ensures Scenario(v, rv) && (v.fix ==> Validated(v, rv)) && AllInitialised(v, rv)
  {
    x, rv, wv := Witness(v, true), ReadValues(v, true), WrittenValues(v);
    WitnessIsWitness(v, true);
    SerialConsistent(v, x);
    WitnessScenario(v, true);
    SerialReads(v);
  }
}
