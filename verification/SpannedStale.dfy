/** Without the successor acquire and without the released count, every span with an interior
    has a consistent execution in which S attaches and reads the whole interior uninitialised. */
module SpannedStale {
  import opened Relations
  import opened Rc11
  import opened Rc11Coherence
  import opened SpannedAttach
  import opened SpannedWitness

  function Bare(n: nat): Variant {
    Variant(n, false, false)
  }

  ghost predicate IsStale(v: Variant, x: Exec) {
    IsWitness(v, false, x) && !v.fix && !v.sdRelAcq
  }

  /** An upper bound on happens-before: program order, P before F, P's first epoch before D and S,
      and D before S. Nothing of the interior reaches S. */
  predicate MayPrecede(v: Variant, a: Role, b: Role)
    requires v.n >= 1 && Valid(v, a) && Valid(v, b)
  {
    && At(v, a) < At(v, b)
    && var s, t := EventOf(v, a).tid, EventOf(v, b).tid;
       s == t || (s == 0 && t == 1) || (At(v, a) <= 1 && t >= 2) || (s == 2 && t == 3)
  }

  ghost predicate Precedes(v: Variant, a: nat, b: nat)
    requires v.n >= 1
  {
    exists r, s :: Plays(v, r, a) && Plays(v, s, b) && MayPrecede(v, r, s)
  }

  lemma PrecedesBy(v: Variant, r: Role, s: Role)
    requires v.n >= 1 && Valid(v, r) && Valid(v, s) && MayPrecede(v, r, s)
    ensures Precedes(v, At(v, r), At(v, s))
  {
    assert Plays(v, r, At(v, r)) && Plays(v, s, At(v, s));
  }

  lemma PrecedesTransitive(v: Variant, a: nat, b: nat, c: nat)
    requires v.n >= 1 && Precedes(v, a, b) && Precedes(v, b, c)
    ensures Precedes(v, a, c)
  {
    var r, s :| Plays(v, r, a) && Plays(v, s, b) && MayPrecede(v, r, s);
    var s', t :| Plays(v, s', b) && Plays(v, t, c) && MayPrecede(v, s', t);
    AtInjective(v, s, s');
    Transits(v, r, s, t);
  }

  lemma Transits(v: Variant, r: Role, s: Role, t: Role)
    requires v.n >= 1 && Valid(v, r) && Valid(v, s) && Valid(v, t)
    requires MayPrecede(v, r, s) && MayPrecede(v, s, t)
    ensures MayPrecede(v, r, t)
  {
  }

  /** An acquire read that sees a release: F from the publication, D and S from the first
      epoch, S from the discharge. */
  lemma ReleaseSeen(v: Variant, role: Role)
    requires v.n >= 1 && !v.sdRelAcq && Valid(v, role) && Sees(false, role) && EventOf(v, role).ord.Acquires()
    ensures var w := Writer(EventOf(v, role).loc); Valid(v, w) && MayPrecede(v, w, role)
  {
  }

  lemma SwPrecedes(v: Variant, x: Exec, c: nat, r: nat)
    requires IsStale(v, x) && Candidate(x) && InSw(x, c, r)
    ensures Precedes(v, c, r)
  {
    var reader := Known(v, false, x, r);
    var head := Known(v, false, x, c);
    WriterFacts(v, false, reader);
    WriterFacts(v, false, head);
    WitnessPos(v, false, x, reader);
    WitnessPos(v, false, x, head);
    ReleaseSeen(v, reader);
    assert head == Writer(EventOf(v, reader).loc);
    PrecedesBy(v, head, reader);
  }

  lemma SbPrecedes(v: Variant, x: Exec, a: nat, b: nat)
    requires IsStale(v, x) && InSb(x, a, b)
    ensures Precedes(v, a, b)
  {
    var r := Known(v, false, x, a);
    var s := Known(v, false, x, b);
    SbAscends(v, r, s);
    PrecedesBy(v, r, s);
  }

  lemma EdgePrecedes(v: Variant, x: Exec, a: nat, b: nat)
    requires IsStale(v, x) && Candidate(x) && (a, b) in Sb(x) + Sw(x)
    ensures Precedes(v, a, b)
  {
    if (a, b) in Sb(x) {
      SbPrecedes(v, x, a, b);
    } else {
      SwPrecedes(v, x, a, b);
    }
  }

  ghost function Bound(v: Variant): (r: set<Edge>)
    requires v.n >= 1
    ensures forall a: nat, b: nat :: (a, b) in r <==> a < Size(v) && b < Size(v) && Precedes(v, a, b)
  {
    set a: nat, b: nat | a < Size(v) && b < Size(v) && Precedes(v, a, b) :: (a, b)
  }

  lemma BoundTransitive(v: Variant)
    requires v.n >= 1
    ensures Transitive(Bound(v))
  {
    forall a: nat, b: nat, c: nat | (a, b) in Bound(v) && (b, c) in Bound(v) ensures (a, c) in Bound(v) {
      PrecedesTransitive(v, a, b, c);
    }
  }

  lemma HbPrecedes(v: Variant, x: Exec, a: nat, b: nat)
    requires IsStale(v, x) && Candidate(x) && Hb(x, a, b)
    ensures Precedes(v, a, b)
  {
    var g := Sb(x) + Sw(x);
    forall e | e in g ensures e in Bound(v) {
      assert (e.0, e.1) in g;
      EdgePrecedes(v, x, e.0, e.1);
    }
    BoundTransitive(v);
    ReachWithin(g, a, b, Bound(v));
  }

  /** Along the bound, the later event at a location is a read that sees the location's write. */
  lemma SameLocSees(v: Variant, a: Role, b: Role)
    requires v.n >= 1 && !v.fix && Valid(v, a) && Valid(v, b) && MayPrecede(v, a, b)
    requires EventOf(v, a).loc == EventOf(v, b).loc
    ensures Sees(false, b)
  {
  }

  lemma KeysDoNotFall(v: Variant, x: Exec, a: nat, b: nat)
    requires IsStale(v, x) && Candidate(x) && Precedes(v, a, b)
    ensures a < b < |x.ev| && (SameLoc(x, a, b) ==> Key(x, a) <= Key(x, b))
  {
    var r, s :| Plays(v, r, a) && Plays(v, s, b) && MayPrecede(v, r, s);
    WitnessPos(v, false, x, r);
    WitnessPos(v, false, x, s);
    WriterFacts(v, false, r);
    WriterFacts(v, false, s);
    if SameLoc(x, a, b) {
      SameLocSees(v, r, s);
    }
  }

  lemma StaleConsistent(v: Variant, x: Exec)
    requires IsStale(v, x)
    ensures Candidate(x) && Consistent(x)
  {
    WitnessCandidate(v, false, x);
    WitnessAtomic(v, false, x);
    WitnessNoThinAir(v, false, x);
    forall a: nat, b: nat | Hb(x, a, b) ensures a != b && !Eco(x, b, a) {
      HbPrecedes(v, x, a, b);
      KeysDoNotFall(v, x, a, b);
      EcoIsKeyOrder(x, b, a);
    }
  }

  /** Every interior epoch is read with its initial values. */
  ghost predicate AllStale(v: Variant, rv: map<nat, int>) {
    forall e :: 2 <= e <= v.n ==> Saw(v, rv, SEs(e), 0) && Saw(v, rv, SSq(e), 0)
  }

  lemma StaleInterior(v: Variant)
    requires v.n >= 2
    ensures AllStale(v, ReadValues(v, false)) && !AllInitialised(v, ReadValues(v, false))
  {
    var rv := ReadValues(v, false);
    forall e | 2 <= e <= v.n ensures Saw(v, rv, SEs(e), 0) && Saw(v, rv, SSq(e), 0) {
      ValuesAt(v, false, SEs(e));
      ValuesAt(v, false, SSq(e));
    }
    assert !Initialised(v, ReadValues(v, false), 2);
  }

  /** The gap is real for every span with an interior: a consistent execution of the unfixed
      protocol in which S attaches and every interior epoch is read uninitialised. It is not
      sequentially consistent. */
  lemma InteriorGap(n: nat)
    requires n >= 2
    ensures var v := Bare(n);
      var x, rv := Witness(v, false), ReadValues(v, false);
      && Execution(v, x, rv, WrittenValues(v)) && Consistent(x) && !SequentiallyConsistent(x)
      && Scenario(v, rv) && AllStale(v, rv)
  {
    var v := Bare(n);
    var x, rv := Witness(v, false), ReadValues(v, false);
    WitnessIsWitness(v, false);
    WitnessExecution(v, false, x);
    StaleConsistent(v, x);
    WitnessScenario(v, false);
    StaleInterior(v);
    StaleNotSc(v, x, rv, WrittenValues(v));
  }

  /** Every consistent execution in which S attaches reads an initialised interior. */
  ghost predicate AttachesInitialised(v: Variant)
    requires v.n >= 1
  {
    forall x: Exec, rv: map<nat, int>, wv: map<nat, int> ::
      Execution(v, x, rv, wv) && Consistent(x) && Scenario(v, rv) && (v.fix ==> Validated(v, rv)) ==>
        AllInitialised(v, rv)
  }

  /** The exact condition: attaching is safe for a span without an interior, with the successor
      acquire, or with the released count, and in no other case. */
  lemma AttachExact(v: Variant)
    requires v.n >= 1
    ensures AttachesInitialised(v) <==> v.n == 1 || v.fix || v.sdRelAcq
  {
    if v.n == 1 || v.fix || v.sdRelAcq {
      forall x: Exec, rv: map<nat, int>, wv: map<nat, int> |
        Execution(v, x, rv, wv) && Consistent(x) && Scenario(v, rv) && (v.fix ==> Validated(v, rv))
        ensures AllInitialised(v, rv)
      {
        if v.fix {
          AttachWithSuccessorAcquire(v, x, rv, wv);
        } else if v.sdRelAcq {
          AttachWithReleasedCount(v, x, rv, wv);
        }
      }
    } else {
      assert v == Bare(v.n);
      InteriorGap(v.n);
      StaleInterior(v);
    }
  }
}
