/** The spanned-interior attach chain for a span of any length: when the subscriber's later reads
    of the interior epochs are sure to be initialised, and when they are not. */
module SpannedAttach {
  import opened Relations
  import opened Rc11
  import opened Rc11Coherence

  /** `fix` adds the successor acquire of `es_n`; `sdRelAcq` is the alternative in which the
      discharge count is added with release and confirmed with acquire. */
  datatype Variant = Variant(n: nat, fix: bool, sdRelAcq: bool)

  /** The events, by thread: the spanning producer P, the finishing consumer F, the discharger D
      and the fresh subscriber S. */
  datatype Role =
    | PSq(e: nat) | PEs(e: nat) | PSent
    | FSent | FAdd
    | DEs | DSd | DCas
    | SLive | SCand | SSucc | SEs(e: nat) | SSq(e: nat)

  predicate Valid(v: Variant, role: Role) {
    match role
    case PSq(e) => 1 <= e <= v.n
    case PEs(e) => 1 <= e <= v.n
    case SSucc => v.fix
    case SEs(e) => 2 <= e <= v.n
    case SSq(e) => 2 <= e <= v.n
    case _ => true
  }

  /** First number of S's interior reads. */
  function Interior(v: Variant): nat {
    2 * v.n + if v.fix then 9 else 8
  }

  function Size(v: Variant): nat
    requires v.n >= 1
  {
    Interior(v) + 2 * (v.n - 1)
  }

  /** The number of an event. */
  function At(v: Variant, role: Role): (i: nat)
    requires v.n >= 1 && Valid(v, role)
    ensures i < Size(v)
  {
    match role
    case PSq(e) => 2 * e - 2
    case PEs(e) => 2 * e - 1
    case PSent => 2 * v.n
    case FSent => 2 * v.n + 1
    case FAdd => 2 * v.n + 2
    case DEs => 2 * v.n + 3
    case DSd => 2 * v.n + 4
    case DCas => 2 * v.n + 5
    case SLive => 2 * v.n + 6
    case SCand => 2 * v.n + 7
    case SSucc => 2 * v.n + 8
    case SEs(e) => Interior(v) + 2 * (e - 2)
    case SSq(e) => Interior(v) + 2 * (e - 2) + 1
  }

  function EventOf(v: Variant, role: Role): Event
    requires v.n >= 1 && Valid(v, role)
  {
    var i := At(v, role);
    match role
    case PSq(e) => Event(0, i, W, Sq(e), Rlx, Store(1))
    case PEs(e) => Event(0, i, W, Es(e), Rel, Store(e))
    case PSent => Event(0, i, W, Sent, Rel, Store(1))
    case FSent => Event(1, 0, R, Sent, Acq, NoWrite)
    case FAdd => Event(1, 1, U, Sd0, if v.sdRelAcq then Rel else Rlx, Increment)
    case DEs => Event(2, 0, R, Es(1), Acq, NoWrite)
    case DSd => Event(2, 1, R, Sd0, if v.sdRelAcq then Acq else Rlx, NoWrite)
    case DCas => Event(2, 2, U, Live0, AcqRel, Cas)
    case SLive => Event(3, 0, R, Live0, Acq, NoWrite)
    case SCand => Event(3, 1, R, Es(1), Acq, NoWrite)
    case SSucc => Event(3, 2, R, Es(v.n), Acq, NoWrite)
    case SEs(e) => Event(3, i - At(v, SLive), R, Es(e), Acq, NoWrite)
    case SSq(e) => Event(3, i - At(v, SLive), R, Sq(e), Rlx, NoWrite)
  }

  ghost predicate Plays(v: Variant, role: Role, i: nat)
    requires v.n >= 1
  {
    Valid(v, role) && At(v, role) == i
  }

  ghost predicate Played(v: Variant, i: nat)
    requires v.n >= 1
  {
    exists role :: Plays(v, role, i)
  }

  /** `ev` is the litmus program: every event has its place and every place its event. */
  ghost predicate IsProgram(v: Variant, ev: seq<Event>) {
    && v.n >= 1 && |ev| == Size(v)
    && (forall role :: Valid(v, role) ==> ev[At(v, role)] == EventOf(v, role))
    && forall i: nat :: i < |ev| ==> Played(v, i)
  }

  lemma RoleOf(v: Variant, ev: seq<Event>, i: nat) returns (role: Role)
    requires IsProgram(v, ev) && i < |ev|
    ensures Valid(v, role) && At(v, role) == i && ev[i] == EventOf(v, role)
  {
    assert Played(v, i);
    role :| Plays(v, role, i);
  }

  function Half(i: nat): (h: nat)
    ensures 2 * h <= i <= 2 * h + 1
  {
    if i < 2 then 0 else 1 + Half(i - 2)
  }

  function RoleAt(v: Variant, i: nat): (role: Role)
    requires v.n >= 1 && i < Size(v)
    ensures Valid(v, role) && At(v, role) == i
  {
    if i < 2 * v.n then
      if i == 2 * Half(i) then PSq(Half(i) + 1) else PEs(Half(i) + 1)
    else if i >= Interior(v) then
      var k := i - Interior(v);
      if k == 2 * Half(k) then SEs(Half(k) + 2) else SSq(Half(k) + 2)
    else
      var k := i - 2 * v.n;
      if k == 0 then PSent else if k == 1 then FSent else if k == 2 then FAdd
      else if k == 3 then DEs else if k == 4 then DSd else if k == 5 then DCas
      else if k == 6 then SLive else if k == 7 then SCand else SSucc
  }

  lemma AtInjective(v: Variant, a: Role, b: Role)
    requires v.n >= 1 && Valid(v, a) && Valid(v, b) && At(v, a) == At(v, b)
    ensures a == b
  {
  }

  function Program(v: Variant): (ev: seq<Event>)
    requires v.n >= 1
    ensures |ev| == Size(v)
  {
    seq(Size(v), i requires 0 <= i < Size(v) => EventOf(v, RoleAt(v, i)))
  }

  /** `Program(v)` is the one sequence of events that is the litmus program. */
  lemma ProgramIsProgram(v: Variant, ev: seq<Event>)
    requires v.n >= 1
    ensures IsProgram(v, ev) <==> ev == Program(v)
  {
    var p := Program(v);
    forall role | Valid(v, role) ensures p[At(v, role)] == EventOf(v, role) {
      AtInjective(v, role, RoleAt(v, At(v, role)));
    }
    forall i: nat | i < |p| ensures Played(v, i) {
      assert Plays(v, RoleAt(v, i), i);
    }
    assert IsProgram(v, p);
    if IsProgram(v, ev) {
      forall i | 0 <= i < |ev| ensures ev[i] == p[i] {
        var role := RoleOf(v, ev, i);
        assert p[At(v, role)] == EventOf(v, role);
      }
    }
  }

  // Values.

  function InitialValue(l: Loc): int {
    if l == Live0 then 1 else 0
  }

  ghost predicate WriteValued(x: Exec, rv: map<nat, int>, wv: map<nat, int>, i: nat)
    requires Writes(x, i)
  {
    && i in wv
    && match x.ev[i].op
       case Store(value) => wv[i] == value
       case Increment => i in rv && wv[i] == rv[i] + 1
       case Cas => i in rv && rv[i] == 1 && wv[i] == 0
       case NoWrite => false
  }

  ghost predicate ReadValued(x: Exec, rv: map<nat, int>, wv: map<nat, int>, r: nat)
    requires Reads(x, r)
  {
    && r in rv && r in x.rf
    && match x.rf[r]
       case Init => rv[r] == InitialValue(x.ev[r].loc)
       case Ev(w) => w in wv && rv[r] == wv[w]
  }

  /** The values the execution gives its reads and writes; a compare-and-swap that would fail has
      none, and such executions are skipped. */
  ghost predicate Valued(x: Exec, rv: map<nat, int>, wv: map<nat, int>) {
    && (forall i :: 0 <= i < |x.ev| && Writes(x, i) ==> WriteValued(x, rv, wv, i))
    && (forall r :: 0 <= r < |x.ev| && Reads(x, r) ==> ReadValued(x, rv, wv, r))
  }

  ghost predicate Execution(v: Variant, x: Exec, rv: map<nat, int>, wv: map<nat, int>) {
    IsProgram(v, x.ev) && Candidate(x) && Valued(x, rv, wv)
  }

  ghost predicate Saw(v: Variant, rv: map<nat, int>, role: Role, value: int)
    requires v.n >= 1 && Valid(v, role)
  {
    At(v, role) in rv && rv[At(v, role)] == value
  }

  /** F saw the publication, D confirmed and discharged epoch 0, and S attached. */
  ghost predicate Scenario(v: Variant, rv: map<nat, int>)
    requires v.n >= 1
  {
    Saw(v, rv, FSent, 1) && Saw(v, rv, DEs, 1) && Saw(v, rv, DSd, 1) && Saw(v, rv, SLive, 0) && Saw(v, rv, SCand, 1)
  }

  /** With the successor acquire, S attaches only if it read the last epoch of the span. */
  ghost predicate Validated(v: Variant, rv: map<nat, int>)
    requires v.n >= 1 && v.fix
  {
    Saw(v, rv, SSucc, v.n)
  }

  /** S's later reads of interior epoch `e` are both initialised. */
  ghost predicate Initialised(v: Variant, rv: map<nat, int>, e: nat)
    requires 2 <= e <= v.n
  {
    Saw(v, rv, SEs(e), e) && Saw(v, rv, SSq(e), 1)
  }

  ghost predicate AllInitialised(v: Variant, rv: map<nat, int>) {
    forall e :: 2 <= e <= v.n ==> Initialised(v, rv, e)
  }

  // The source's own program, of span three.

  /** Its first fourteen events, which all variants share but for the order of the count. */
  function Opening(sdRelAcq: bool): seq<Event> {
    [ Event(0, 0, W, Sq(1), Rlx, Store(1)), Event(0, 1, W, Es(1), Rel, Store(1)),
      Event(0, 2, W, Sq(2), Rlx, Store(1)), Event(0, 3, W, Es(2), Rel, Store(2)),
      Event(0, 4, W, Sq(3), Rlx, Store(1)), Event(0, 5, W, Es(3), Rel, Store(3)),
      Event(0, 6, W, Sent, Rel, Store(1)),
      Event(1, 0, R, Sent, Acq, NoWrite), Event(1, 1, U, Sd0, if sdRelAcq then Rel else Rlx, Increment),
      Event(2, 0, R, Es(1), Acq, NoWrite), Event(2, 1, R, Sd0, if sdRelAcq then Acq else Rlx, NoWrite),
      Event(2, 2, U, Live0, AcqRel, Cas),
      Event(3, 0, R, Live0, Acq, NoWrite), Event(3, 1, R, Es(1), Acq, NoWrite) ]
  }

  /** S's reads of the interior epochs 2 and 3, from its `k`-th event on. */
  function Interiors(k: nat): seq<Event> {
    [ Event(3, k, R, Es(2), Acq, NoWrite), Event(3, k + 1, R, Sq(2), Rlx, NoWrite),
      Event(3, k + 2, R, Es(3), Acq, NoWrite), Event(3, k + 3, R, Sq(3), Rlx, NoWrite) ]
  }

  lemma LitmusProgram(sdRelAcq: bool)
    ensures Program(Variant(3, false, sdRelAcq)) == Opening(sdRelAcq) + Interiors(2)
    ensures Program(Variant(3, true, sdRelAcq)) ==
            Opening(sdRelAcq) + [Event(3, 2, R, Es(3), Acq, NoWrite)] + Interiors(3)
  {
    LitmusShared(Variant(3, false, sdRelAcq));
    LitmusShared(Variant(3, true, sdRelAcq));
    LitmusReads(Variant(3, false, sdRelAcq));
    LitmusReads(Variant(3, true, sdRelAcq));
    var p, q := Program(Variant(3, false, sdRelAcq)), Program(Variant(3, true, sdRelAcq));
    assert p == p[..14] + p[14..] && q == q[..14] + q[14..15] + q[15..];
  }

  lemma RoleEvents(v: Variant)
    requires v.n >= 1
    ensures forall role :: Valid(v, role) ==> Program(v)[At(v, role)] == EventOf(v, role)
  {
    ProgramIsProgram(v, Program(v));
  }

  lemma LitmusShared(v: Variant)
    requires v.n == 3
    ensures |Program(v)| == (if v.fix then 19 else 18) && Program(v)[..14] == Opening(v.sdRelAcq)
  {
    LitmusProducer(v);
    LitmusOthers(v);
    var p, o := Program(v), Opening(v.sdRelAcq);
    assert p[..14] == p[..7] + p[7..14] && o == o[..7] + o[7..];
  }

  lemma LitmusProducer(v: Variant)
    requires v.n == 3
    ensures Program(v)[..7] == Opening(v.sdRelAcq)[..7]
  {
    var p := Program(v);
    RoleEvents(v);
    assert p[0] == EventOf(v, PSq(1)) && p[1] == EventOf(v, PEs(1));
    assert p[2] == EventOf(v, PSq(2)) && p[3] == EventOf(v, PEs(2));
    assert p[4] == EventOf(v, PSq(3)) && p[5] == EventOf(v, PEs(3)) && p[6] == EventOf(v, PSent);
  }

  lemma LitmusOthers(v: Variant)
    requires v.n == 3
    ensures Program(v)[7..14] == Opening(v.sdRelAcq)[7..]
  {
    var p := Program(v);
    RoleEvents(v);
    assert p[7] == EventOf(v, FSent) && p[8] == EventOf(v, FAdd);
    assert p[9] == EventOf(v, DEs) && p[10] == EventOf(v, DSd) && p[11] == EventOf(v, DCas);
    assert p[12] == EventOf(v, SLive) && p[13] == EventOf(v, SCand);
  }

  lemma LitmusReads(v: Variant)
    requires v.n == 3
    ensures |Program(v)| == if v.fix then 19 else 18
    ensures v.fix ==> Program(v)[14..15] == [Event(3, 2, R, Es(3), Acq, NoWrite)] && Program(v)[15..] == Interiors(3)
    ensures !v.fix ==> Program(v)[14..] == Interiors(2)
  {
    var p := Program(v);
    var k := if v.fix then 15 else 14;
    RoleEvents(v);
    if v.fix {
      assert p[14] == EventOf(v, SSucc);
    }
    assert p[k] == EventOf(v, SEs(2)) && p[k + 1] == EventOf(v, SSq(2));
    assert p[k + 2] == EventOf(v, SEs(3)) && p[k + 3] == EventOf(v, SSq(3));
    assert p[k..] == Interiors(if v.fix then 3 else 2);
  }

  ghost predicate Read(rv: map<nat, int>, i: nat, value: int) {
    i in rv && rv[i] == value
  }

  /** The values that let S attach, pass validation, and count as initialised, event by event. */
  lemma LitmusValues(v: Variant, rv: map<nat, int>)
    requires v.n == 3
    ensures Scenario(v, rv) <==>
              Read(rv, 7, 1) && Read(rv, 9, 1) && Read(rv, 10, 1) && Read(rv, 12, 0) && Read(rv, 13, 1)
    ensures v.fix ==> (Validated(v, rv) <==> Read(rv, 14, 3))
    ensures var k := if v.fix then 15 else 14;
      AllInitialised(v, rv) <==> Read(rv, k, 2) && Read(rv, k + 1, 1) && Read(rv, k + 2, 3) && Read(rv, k + 3, 1)
  {
    if Initialised(v, rv, 2) && Initialised(v, rv, 3) {
      assert AllInitialised(v, rv);
    }
    if AllInitialised(v, rv) {
      assert Initialised(v, rv, 2) && Initialised(v, rv, 3);
    }
  }

  // General message passing.

  ghost predicate SoleWriter(x: Exec, w: nat) {
    Writes(x, w) && forall i: nat :: Writes(x, i) && SameLoc(x, i, w) ==> i == w
  }

  lemma HbSb(x: Exec, a: nat, b: nat)
    requires Candidate(x) && InSb(x, a, b)
    ensures Hb(x, a, b)
  {
    assert (a, b) in Sb(x);
    ReachEdge(Sb(x) + Sw(x), a, b);
  }

  lemma HbSw(x: Exec, w: nat, r: nat)
    requires Candidate(x) && Reads(x, r) && Writes(x, w) && x.rf[r] == Ev(w)
    requires x.ev[w].ord.Releases() && x.ev[r].ord.Acquires()
    ensures Hb(x, w, r)
  {
    RfPosFacts(x, r);
    assert InSw(x, w, r);
    assert (w, r) in Sw(x);
    ReachEdge(Sb(x) + Sw(x), w, r);
  }

  lemma HbTrans(x: Exec, a: nat, b: nat, c: nat)
    requires Candidate(x) && Hb(x, a, b) && Hb(x, b, c)
    ensures Hb(x, a, c)
  {
    ReachTrans(Sb(x) + Sw(x), a, b, c);
  }

  lemma InitReadFr(x: Exec, w: nat, r: nat)
    requires Candidate(x) && Writes(x, w) && Reads(x, r) && SameLoc(x, r, w) && w != r && x.rf[r] == Init
    ensures InFr(x, r, w)
  {
    PosFacts(x, w);
    RfPosFacts(x, r);
  }

  /** A read that follows a location's only write in happens-before reads it. */
  lemma ReadsSoleWriter(x: Exec, w: nat, r: nat)
    requires Candidate(x) && Coherent(x) && SoleWriter(x, w)
    requires Reads(x, r) && SameLoc(x, r, w) && Hb(x, w, r)
    ensures x.rf[r] == Ev(w)
  {
    RfPosFacts(x, r);
    if x.rf[r] == Init {
      InitReadFr(x, w, r);
      FrEco(x, r, w);
    }
  }

  /** A read of a location with one writer that sees something other than the initial value. */
  lemma NonInitialRead(x: Exec, rv: map<nat, int>, wv: map<nat, int>, w: nat, r: nat)
    requires Candidate(x) && Valued(x, rv, wv) && SoleWriter(x, w) && Reads(x, r) && SameLoc(x, r, w)
    requires r in rv && rv[r] != InitialValue(x.ev[r].loc)
    ensures x.rf[r] == Ev(w)
  {
    RfPosFacts(x, r);
    assert ReadValued(x, rv, wv, r);
  }

  // The litmus program.

  predicate IsWrite(role: Role) {
    role.PSq? || role.PEs? || role.PSent? || role.FAdd? || role.DCas?
  }

  lemma SoleWriters(v: Variant, x: Exec, role: Role)
    requires IsProgram(v, x.ev) && Valid(v, role) && IsWrite(role)
    ensures SoleWriter(x, At(v, role))
  {
    var w := At(v, role);
    assert x.ev[w] == EventOf(v, role);
    forall i: nat | Writes(x, i) && SameLoc(x, i, w) ensures i == w {
      var other := RoleOf(v, x.ev, i);
    }
  }

  /** P's publication is read by F, F's addition by D, and D's discharge by S. */
  ghost predicate Chained(v: Variant, x: Exec)
    requires v.n >= 1
  {
    && At(v, FSent) in x.rf && x.rf[At(v, FSent)] == Ev(At(v, PSent))
    && At(v, DSd) in x.rf && x.rf[At(v, DSd)] == Ev(At(v, FAdd))
    && At(v, SLive) in x.rf && x.rf[At(v, SLive)] == Ev(At(v, DCas))
  }

  lemma SawWrite(v: Variant, x: Exec, rv: map<nat, int>, wv: map<nat, int>, w: Role, r: Role, value: int)
    requires Execution(v, x, rv, wv) && Valid(v, w) && Valid(v, r) && Saw(v, rv, r, value)
    requires IsWrite(w) && EventOf(v, r).kind == R && EventOf(v, w).loc == EventOf(v, r).loc
    requires value != InitialValue(EventOf(v, r).loc)
    ensures At(v, r) in x.rf && x.rf[At(v, r)] == Ev(At(v, w))
  {
    SoleWriters(v, x, w);
    assert x.ev[At(v, w)] == EventOf(v, w) && x.ev[At(v, r)] == EventOf(v, r);
    NonInitialRead(x, rv, wv, At(v, w), At(v, r));
  }

  lemma AttachChain(v: Variant, x: Exec, rv: map<nat, int>, wv: map<nat, int>)
    requires Execution(v, x, rv, wv) && Scenario(v, rv)
    ensures Chained(v, x)
  {
    SawWrite(v, x, rv, wv, PSent, FSent, 1);
    SawWrite(v, x, rv, wv, FAdd, DSd, 1);
    SawWrite(v, x, rv, wv, DCas, SLive, 0);
  }

  predicate Before(v: Variant, a: Role, b: Role)
    requires v.n >= 1 && Valid(v, a) && Valid(v, b)
  {
    EventOf(v, a).tid == EventOf(v, b).tid && At(v, a) < At(v, b)
  }

  lemma BeforeSb(v: Variant, x: Exec, a: Role, b: Role)
    requires IsProgram(v, x.ev) && Valid(v, a) && Valid(v, b) && Before(v, a, b)
    ensures InSb(x, At(v, a), At(v, b))
  {
    assert x.ev[At(v, a)] == EventOf(v, a) && x.ev[At(v, b)] == EventOf(v, b);
  }

  /** Extends happens-before from `a` by program order. */
  lemma HbOn(v: Variant, x: Exec, a: nat, b: Role, c: Role)
    requires IsProgram(v, x.ev) && Candidate(x) && Valid(v, b) && Valid(v, c) && Before(v, b, c)
    requires Hb(x, a, At(v, b))
    ensures Hb(x, a, At(v, c))
  {
    BeforeSb(v, x, b, c);
    HbSb(x, At(v, b), At(v, c));
    HbTrans(x, a, At(v, b), At(v, c));
  }

  /** Extends happens-before from `a` by a release-acquire pair. */
  lemma HbAcross(v: Variant, x: Exec, a: nat, w: Role, r: Role)
    requires IsProgram(v, x.ev) && Candidate(x) && Valid(v, w) && Valid(v, r)
    requires At(v, r) in x.rf && x.rf[At(v, r)] == Ev(At(v, w))
    requires EventOf(v, w).ord.Releases() && EventOf(v, r).ord.Acquires()
    requires a == At(v, w) || Hb(x, a, At(v, w))
    ensures Hb(x, a, At(v, r))
  {
    assert x.ev[At(v, w)] == EventOf(v, w) && x.ev[At(v, r)] == EventOf(v, r);
    HbSw(x, At(v, w), At(v, r));
    if a != At(v, w) {
      HbTrans(x, a, At(v, w), At(v, r));
    }
  }

  /** With the released count, P's publication happens before S's attach. */
  lemma ReleasedChain(v: Variant, x: Exec)
    requires IsProgram(v, x.ev) && Candidate(x) && Chained(v, x) && v.sdRelAcq
    ensures Hb(x, At(v, PSent), At(v, SLive))
  {
    var s := At(v, PSent);
    HbAcross(v, x, s, PSent, FSent);
    HbOn(v, x, s, FSent, FAdd);
    HbAcross(v, x, s, FAdd, DSd);
    HbOn(v, x, s, DSd, DCas);
    HbAcross(v, x, s, DCas, SLive);
  }

  /** Once P's write of an interior location happens before some event of S, S's later reads of it
      see it. */
  lemma InitialisedRead(v: Variant, x: Exec, rv: map<nat, int>, wv: map<nat, int>, w: Role, a: Role, r: Role,
                        value: int)
    requires Execution(v, x, rv, wv) && Coherent(x) && Valid(v, w) && Valid(v, a) && Valid(v, r)
    requires IsWrite(w) && EventOf(v, w).op == Store(value)
    requires EventOf(v, r).kind == R && EventOf(v, r).loc == EventOf(v, w).loc
    requires Hb(x, At(v, w), At(v, a)) && Before(v, a, r)
    ensures Saw(v, rv, r, value)
  {
    HbOn(v, x, At(v, w), a, r);
    SoleWriters(v, x, w);
    assert x.ev[At(v, w)] == EventOf(v, w) && x.ev[At(v, r)] == EventOf(v, r);
    ReadsSoleWriter(x, At(v, w), At(v, r));
    assert ReadValued(x, rv, wv, At(v, r)) && WriteValued(x, rv, wv, At(v, w));
  }

  /** If an event of P at or after epoch `e` happens before an event of S, S then sees epoch `e`. */
  lemma InitialisedAfter(v: Variant, x: Exec, rv: map<nat, int>, wv: map<nat, int>, e: nat, m: Role, a: Role)
    requires Execution(v, x, rv, wv) && Coherent(x) && 2 <= e <= v.n && Valid(v, m) && Valid(v, a)
    requires m == PSent || (m.PEs? && e <= m.e)
    requires Hb(x, At(v, m), At(v, a)) && (a == SLive || a == SSucc)
    ensures Initialised(v, rv, e)
  {
    ProducerReaches(v, x, PSq(e), m, a);
    if m != PEs(e) {
      ProducerReaches(v, x, PEs(e), m, a);
    }
    InitialisedRead(v, x, rv, wv, PSq(e), a, SSq(e), 1);
    InitialisedRead(v, x, rv, wv, PEs(e), a, SEs(e), e);
  }

  lemma ProducerReaches(v: Variant, x: Exec, w: Role, m: Role, a: Role)
    requires IsProgram(v, x.ev) && Candidate(x) && Valid(v, w) && Valid(v, m) && Valid(v, a)
    requires Before(v, w, m) && Hb(x, At(v, m), At(v, a))
    ensures Hb(x, At(v, w), At(v, a))
  {
    BeforeSb(v, x, w, m);
    HbSb(x, At(v, w), At(v, m));
    HbTrans(x, At(v, w), At(v, m), At(v, a));
  }

  /** The successor acquire closes the gap for every span length. */
  lemma AttachWithSuccessorAcquire(v: Variant, x: Exec, rv: map<nat, int>, wv: map<nat, int>)
    requires Execution(v, x, rv, wv) && Consistent(x) && v.fix && Validated(v, rv)
    ensures AllInitialised(v, rv)
  {
    var m := PEs(v.n);
    SawWrite(v, x, rv, wv, m, SSucc, v.n);
    HbAcross(v, x, At(v, m), m, SSucc);
    forall e | 2 <= e <= v.n ensures Initialised(v, rv, e) {
      InitialisedAfter(v, x, rv, wv, e, m, SSucc);
    }
  }

  /** So does making the discharge count a release and its confirmation an acquire. */
  lemma AttachWithReleasedCount(v: Variant, x: Exec, rv: map<nat, int>, wv: map<nat, int>)
    requires Execution(v, x, rv, wv) && Consistent(x) && v.sdRelAcq && Scenario(v, rv)
    ensures AllInitialised(v, rv)
  {
    AttachChain(v, x, rv, wv);
    ReleasedChain(v, x);
    forall e | 2 <= e <= v.n ensures Initialised(v, rv, e) {
      InitialisedAfter(v, x, rv, wv, e, PSent, SLive);
    }
  }

  // Sequential consistency.

  lemma ScOn(v: Variant, x: Exec, a: nat, b: Role, c: Role)
    requires IsProgram(v, x.ev) && Candidate(x) && Valid(v, b) && Valid(v, c) && Before(v, b, c)
    requires a == At(v, b) || Reach(ScGraph(x), a, At(v, b))
    ensures Reach(ScGraph(x), a, At(v, c))
  {
    BeforeSb(v, x, b, c);
    ScEdge(x, a, At(v, b), At(v, c));
  }

  lemma ScAcross(v: Variant, x: Exec, a: nat, w: Role, r: Role)
    requires IsProgram(v, x.ev) && Candidate(x) && Valid(v, w) && Valid(v, r)
    requires At(v, r) in x.rf && x.rf[At(v, r)] == Ev(At(v, w)) && Reach(ScGraph(x), a, At(v, w))
    ensures Reach(ScGraph(x), a, At(v, r))
  {
    assert InRf(x, At(v, w), At(v, r));
    ScEdge(x, a, At(v, w), At(v, r));
  }

  lemma ScEdge(x: Exec, a: nat, b: nat, c: nat)
    requires Candidate(x) && (InSb(x, b, c) || InRf(x, b, c) || InFr(x, b, c))
    requires a == b || Reach(ScGraph(x), a, b)
    ensures Reach(ScGraph(x), a, c)
  {
    assert (b, c) in Sb(x) || (b, c) in RfEdges(x) || (b, c) in FrEdges(x);
    ReachEdge(ScGraph(x), b, c);
    if a != b {
      ReachTrans(ScGraph(x), a, b, c);
    }
  }

  /** An uninitialised read by S after it attached closes a cycle of program order, read-from,
      modification order and from-read. */
  lemma InitReadNotSc(v: Variant, x: Exec, w: Role, r: Role)
    requires IsProgram(v, x.ev) && Candidate(x) && Chained(v, x) && Valid(v, w) && Valid(v, r)
    requires (w.PSq? || w.PEs?) && Before(v, SLive, r)
    requires EventOf(v, r).kind == R && EventOf(v, r).loc == EventOf(v, w).loc
    requires At(v, r) in x.rf && x.rf[At(v, r)] == Init
    ensures !SequentiallyConsistent(x)
  {
    var a := At(v, w);
    ScOn(v, x, a, w, PSent);
    ScAcross(v, x, a, PSent, FSent);
    ScOn(v, x, a, FSent, FAdd);
    ScAcross(v, x, a, FAdd, DSd);
    ScOn(v, x, a, DSd, DCas);
    ScAcross(v, x, a, DCas, SLive);
    ScOn(v, x, a, SLive, r);
    assert x.ev[a] == EventOf(v, w) && x.ev[At(v, r)] == EventOf(v, r);
    InitReadFr(x, a, At(v, r));
    ScEdge(x, a, At(v, r), a);
  }

  /** A read of one of P's locations that does not see P's value sees the initial one. */
  lemma StaleIsInit(v: Variant, x: Exec, rv: map<nat, int>, wv: map<nat, int>, w: Role, r: Role, value: int)
    requires Execution(v, x, rv, wv) && Valid(v, w) && Valid(v, r)
    requires IsWrite(w) && EventOf(v, w).op == Store(value)
    requires EventOf(v, r).kind == R && EventOf(v, r).loc == EventOf(v, w).loc
    requires !Saw(v, rv, r, value)
    ensures At(v, r) in x.rf && x.rf[At(v, r)] == Init
  {
    SoleWriters(v, x, w);
    assert x.ev[At(v, w)] == EventOf(v, w) && x.ev[At(v, r)] == EventOf(v, r);
    RfPosFacts(x, At(v, r));
    assert ReadValued(x, rv, wv, At(v, r)) && WriteValued(x, rv, wv, At(v, w));
  }

  lemma StaleReadNotSc(v: Variant, x: Exec, rv: map<nat, int>, wv: map<nat, int>, w: Role, r: Role, value: int)
    requires Execution(v, x, rv, wv) && Scenario(v, rv) && Valid(v, w) && Valid(v, r)
    requires (w.PSq? || w.PEs?) && EventOf(v, w).op == Store(value) && Before(v, SLive, r)
    requires EventOf(v, r).kind == R && EventOf(v, r).loc == EventOf(v, w).loc
    requires !Saw(v, rv, r, value)
    ensures !SequentiallyConsistent(x)
  {
    AttachChain(v, x, rv, wv);
    StaleIsInit(v, x, rv, wv, w, r, value);
    InitReadNotSc(v, x, w, r);
  }

  lemma StaleEpochNotSc(v: Variant, x: Exec, rv: map<nat, int>, wv: map<nat, int>, e: nat)
    requires Execution(v, x, rv, wv) && Scenario(v, rv) && 2 <= e <= v.n && !Saw(v, rv, SEs(e), e)
    ensures !SequentiallyConsistent(x)
  {
    StaleReadNotSc(v, x, rv, wv, PEs(e), SEs(e), e);
  }

  lemma StaleSequenceNotSc(v: Variant, x: Exec, rv: map<nat, int>, wv: map<nat, int>, e: nat)
    requires Execution(v, x, rv, wv) && Scenario(v, rv) && 2 <= e <= v.n && !Saw(v, rv, SSq(e), 1)
    ensures !SequentiallyConsistent(x)
  {
    StaleReadNotSc(v, x, rv, wv, PSq(e), SSq(e), 1);
  }

  /** In every variant, an execution in which S attached and an interior read is stale is not
      sequentially consistent. */
  lemma StaleNotSc(v: Variant, x: Exec, rv: map<nat, int>, wv: map<nat, int>)
    requires Execution(v, x, rv, wv) && Scenario(v, rv) && !AllInitialised(v, rv)
    ensures !SequentiallyConsistent(x)
  {
    var e :| 2 <= e <= v.n && !Initialised(v, rv, e);
    if !Saw(v, rv, SEs(e), e) {
      StaleEpochNotSc(v, x, rv, wv, e);
    } else {
      StaleSequenceNotSc(v, x, rv, wv, e);
    }
  }

  /** With the successor acquire, a rejected validation is not sequentially consistent either. */
  lemma RejectNotSc(v: Variant, x: Exec, rv: map<nat, int>, wv: map<nat, int>)
    requires Execution(v, x, rv, wv) && Scenario(v, rv) && v.fix && !Validated(v, rv)
    ensures !SequentiallyConsistent(x)
  {
    StaleReadNotSc(v, x, rv, wv, PEs(v.n), SSucc, v.n);
  }
}
