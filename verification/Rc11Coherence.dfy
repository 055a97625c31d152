/** Three facts behind the litmus checker, for every candidate execution over any finite set of
    events: the coherence shapes mean `hb;eco?` irreflexive, happens-before stays inside
    program order and read-from, and sequential consistency implies acceptance. */
module Rc11Coherence {
  import opened Relations
  import opened Rc11

  /** Writes sit at the even keys of their location, and a read just after the write it reads. */
  function Key(x: Exec, i: nat): nat
    requires i < |x.ev| && x.ev[i].loc in x.mo && (x.ev[i].kind == R ==> i in x.rf)
  {
    if x.ev[i].kind == R then 2 * RfPos(x, i) + 1 else 2 * Pos(x, i)
  }

  ghost predicate Below(x: Exec, a: nat, b: nat)
    requires Candidate(x)
  {
    a < |x.ev| && b < |x.ev| && SameLoc(x, a, b) && Key(x, a) < Key(x, b)
  }

  lemma RfRaisesKey(x: Exec, w: nat, r: nat)
    requires Candidate(x) && Atomic(x) && InRf(x, w, r)
    ensures Below(x, w, r)
  {
    RfPosFacts(x, r);
    assert Writes(x, w);
  }

  lemma FrRaisesKey(x: Exec, r: nat, b: nat)
    requires Candidate(x) && Atomic(x) && InFr(x, r, b)
    ensures Below(x, r, b)
  {
    if x.ev[r].kind == U {
      PosDistinct(x, r, b);
    }
  }

  lemma CommunicationRaisesKey(x: Exec, a: nat, b: nat)
    requires Candidate(x) && Atomic(x) && (a, b) in Communication(x)
    ensures Below(x, a, b)
  {
    if (a, b) in RfEdges(x) {
      RfRaisesKey(x, a, b);
    } else if (a, b) in FrEdges(x) {
      FrRaisesKey(x, a, b);
    }
  }

  lemma {:induction false} PathRaisesKey(x: Exec, p: seq<nat>)
    requires Candidate(x) && Atomic(x) && IsPath(Communication(x), p)
    ensures Below(x, p[0], p[|p| - 1])
    decreases |p|
  {
    assert EdgeAt(Communication(x), p, |p| - 2);
    CommunicationRaisesKey(x, p[|p| - 2], p[|p| - 1]);
    if |p| <= 2 {
    } else {
      Shorten(Communication(x), p);
      PathRaisesKey(x, p[..|p| - 1]);
    }
  }

  lemma MoEco(x: Exec, a: nat, b: nat)
    requires Candidate(x) && InMo(x, a, b)
    ensures Eco(x, a, b)
  {
    assert (a, b) in MoEdges(x);
    ReachEdge(Communication(x), a, b);
  }

  lemma FrEco(x: Exec, a: nat, b: nat)
    requires Candidate(x) && InFr(x, a, b)
    ensures Eco(x, a, b)
  {
    assert (a, b) in FrEdges(x);
    ReachEdge(Communication(x), a, b);
  }

  /** From the write at `RfPos(b)` onwards, everything reaches the read `b`. */
  lemma IntoRead(x: Exec, a: nat, b: nat)
    requires Candidate(x) && Below(x, a, b) && x.ev[b].kind == R
    ensures Eco(x, a, b)
  {
    RfPosFacts(x, b);
    assert x.rf[b].Ev?;
    var w := x.rf[b].i;
    assert (w, b) in RfEdges(x);
    ReachEdge(Communication(x), w, b);
    if a != w {
      if x.ev[a].kind == R {
        FrEco(x, a, w);
      } else {
        PosDistinct(x, a, w);
        MoEco(x, a, w);
      }
      ReachTrans(Communication(x), a, w, b);
    }
  }

  /** With read-modify-write atomicity, extended coherence order is the key order. */
  lemma EcoIsKeyOrder(x: Exec, a: nat, b: nat)
    requires Candidate(x) && Atomic(x)
    ensures Eco(x, a, b) <==> Below(x, a, b)
  {
    if Eco(x, a, b) {
      var p: seq<nat> :| PathFrom(Communication(x), p, a, b);
      PathRaisesKey(x, p);
    }
    if Below(x, a, b) {
      if x.ev[b].kind == R {
        IntoRead(x, a, b);
      } else if x.ev[a].kind == R {
        FrEco(x, a, b);
      } else {
        MoEco(x, a, b);
      }
    }
  }

  // Happens-before.

  /** An update reads from the write just before it in the order. */
  lemma UpdateReadsBefore(x: Exec, l: Loc, w: nat, k: nat)
    requires Candidate(x) && Atomic(x) && l in x.mo && 0 < k < |x.mo[l]| && UpdateAt(x, l, k)
    requires w < |x.ev| && x.ev[w].loc == l && x.mo[l][k - 1] == Ev(w)
    ensures Reach(Sb(x) + RfEdges(x), w, x.mo[l][k].i)
  {
    var u := x.mo[l][k].i;
    assert Ordered(x, w);
    PosFacts(x, u);
    IndexUnique(x.mo[l], k);
    RfPosFacts(x, u);
    assert (w, u) in RfEdges(x);
    ReachEdge(Sb(x) + RfEdges(x), w, u);
  }

  /** A release sequence is a chain of updates each reading the one before. */
  lemma {:induction false} ReleaseChain(x: Exec, l: Loc, c: nat, k: nat)
    requires Candidate(x) && Atomic(x) && Writes(x, c) && x.ev[c].loc == l
    requires Pos(x, c) < k < |x.mo[l]|
    requires forall j :: Pos(x, c) < j <= k ==> UpdateAt(x, l, j)
    ensures x.mo[l][k].Ev? && Reach(Sb(x) + RfEdges(x), c, x.mo[l][k].i)
    decreases k
  {
    PosFacts(x, c);
    assert UpdateAt(x, l, k);
    if k - 1 == Pos(x, c) {
      UpdateReadsBefore(x, l, c, k);
    } else {
      ReleaseChain(x, l, c, k - 1);
      assert UpdateAt(x, l, k - 1) && Ordered(x, c);
      var w := x.mo[l][k - 1].i;
      UpdateReadsBefore(x, l, w, k);
      ReachTrans(Sb(x) + RfEdges(x), c, w, x.mo[l][k].i);
    }
  }

  lemma SwInsideRf(x: Exec, c: nat, r: nat)
    requires Candidate(x) && Atomic(x) && InSw(x, c, r)
    ensures Reach(Sb(x) + RfEdges(x), c, r)
  {
    var l, k := x.ev[r].loc, RfPos(x, r);
    RfPosFacts(x, r);
    PosFacts(x, c);
    assert x.rf[r].Ev?;
    var w := x.rf[r].i;
    assert (w, r) in RfEdges(x);
    ReachEdge(Sb(x) + RfEdges(x), w, r);
    if k > Pos(x, c) {
      ReleaseChain(x, l, c, k);
      ReachTrans(Sb(x) + RfEdges(x), c, w, r);
    }
  }

  /** Happens-before never leaves program order and read-from. */
  lemma HbInsideSbRf(x: Exec, a: nat, b: nat)
    requires Candidate(x) && Atomic(x) && Hb(x, a, b)
    ensures Reach(Sb(x) + RfEdges(x), a, b)
  {
    forall u: nat, v: nat | (u, v) in Sb(x) + Sw(x) ensures Reach(Sb(x) + RfEdges(x), u, v) {
      if (u, v) in Sw(x) {
        SwInsideRf(x, u, v);
      } else {
        ReachEdge(Sb(x) + RfEdges(x), u, v);
      }
    }
    ReachThrough(Sb(x) + Sw(x), Sb(x) + RfEdges(x), a, b);
  }

  // The shapes.

  ghost predicate HbSet(x: Exec, hb: set<Edge>)
    requires Candidate(x)
  {
    IsClosure(Sb(x) + Sw(x), hb)
  }

  lemma BothWrite(x: Exec, hb: set<Edge>, a: nat, b: nat)
    requires Candidate(x) && Atomic(x) && Writes(x, a) && Writes(x, b) && SameLoc(x, a, b) && a != b && (a, b) in hb
    ensures ShapesAt(x, hb, a, b) <==> !Below(x, b, a)
  {
    PosFacts(x, a);
    PosFacts(x, b);
    PosDistinct(x, a, b);
    if Reads(x, a) {
      RfPosFacts(x, a);
    }
    if Reads(x, b) {
      RfPosFacts(x, b);
    }
  }

  lemma WriteThenRead(x: Exec, hb: set<Edge>, a: nat, b: nat)
    requires Candidate(x) && Atomic(x) && Writes(x, a) && b < |x.ev| && x.ev[b].kind == R
    requires SameLoc(x, a, b) && a != b && (a, b) in hb
    ensures ShapesAt(x, hb, a, b) <==> !Below(x, b, a)
  {
    PosFacts(x, a);
    RfPosFacts(x, b);
    if Reads(x, a) {
      RfPosFacts(x, a);
    }
  }

  lemma ReadThenWrite(x: Exec, hb: set<Edge>, a: nat, b: nat)
    requires Candidate(x) && Atomic(x) && a < |x.ev| && x.ev[a].kind == R && Writes(x, b)
    requires SameLoc(x, a, b) && a != b && (a, b) in hb
    ensures ShapesAt(x, hb, a, b) <==> !Below(x, b, a)
  {
    PosFacts(x, b);
    RfPosFacts(x, a);
    if Reads(x, b) {
      RfPosFacts(x, b);
    }
  }

  lemma BothRead(x: Exec, hb: set<Edge>, a: nat, b: nat)
    requires Candidate(x) && a < |x.ev| && x.ev[a].kind == R && b < |x.ev| && x.ev[b].kind == R
    requires SameLoc(x, a, b) && a != b && (a, b) in hb
    ensures ShapesAt(x, hb, a, b) <==> !Below(x, b, a)
  {
    RfPosFacts(x, a);
    RfPosFacts(x, b);
  }

  /** At one pair the four shapes say that the key order does not go against happens-before. */
  lemma ShapesAtMeaning(x: Exec, hb: set<Edge>, a: nat, b: nat)
    requires Candidate(x) && Atomic(x) && a < |x.ev| && b < |x.ev| && a != b && (a, b) in hb
    ensures ShapesAt(x, hb, a, b) <==> !Below(x, b, a)
  {
    if SameLoc(x, a, b) {
      if x.ev[a].kind == R && x.ev[b].kind == R {
        BothRead(x, hb, a, b);
      } else if x.ev[a].kind == R {
        ReadThenWrite(x, hb, a, b);
      } else if x.ev[b].kind == R {
        WriteThenRead(x, hb, a, b);
      } else {
        BothWrite(x, hb, a, b);
      }
    }
  }

  lemma HbEvents(x: Exec, a: nat, b: nat)
    requires Candidate(x) && Hb(x, a, b)
    ensures a < |x.ev| && b < |x.ev|
  {
    var g := Sb(x) + Sw(x);
    var p: seq<nat> :| PathFrom(g, p, a, b);
    assert EdgeAt(g, p, 0) && EdgeAt(g, p, |p| - 2);
  }

  /** For every candidate with atomic updates and no thin-air cycle, the four per-location shapes
      hold exactly when `hb;eco?` is irreflexive. */
  lemma ShapesAreCoherence(x: Exec, hb: set<Edge>)
    requires Candidate(x) && Atomic(x) && NoThinAir(x) && HbSet(x, hb)
    ensures Shapes(x, hb) <==> Coherent(x)
  {
    if Shapes(x, hb) {
      forall a: nat, b: nat | Hb(x, a, b) ensures a != b && !Eco(x, b, a) {
        HbEvents(x, a, b);
        HbInsideSbRf(x, a, b);
        assert (a, b) in hb && ShapesAt(x, hb, a, b);
        ShapesAtMeaning(x, hb, a, b);
        EcoIsKeyOrder(x, b, a);
      }
    }
    if Coherent(x) {
      forall a: nat, b: nat | a < |x.ev| && b < |x.ev| ensures ShapesAt(x, hb, a, b) {
        if (a, b) in hb && a != b {
          assert Hb(x, a, b);
          ShapesAtMeaning(x, hb, a, b);
          EcoIsKeyOrder(x, b, a);
        }
      }
    }
  }

  /** No read takes its value from itself or from a later write of its own thread; the checker's
      separate test for that is implied by the thin-air test. */
  ghost predicate NoFutureRead(x: Exec)
    requires Candidate(x)
  {
    forall r :: r in x.rf && x.rf[r].Ev? ==> x.rf[r].i != r && (r, x.rf[r].i) !in Sb(x)
  }

  lemma NoThinAirNoFutureRead(x: Exec)
    requires Candidate(x) && NoThinAir(x)
    ensures NoFutureRead(x)
  {
    var g := Sb(x) + RfEdges(x);
    forall r | r in x.rf && x.rf[r].Ev? ensures x.rf[r].i != r && (r, x.rf[r].i) !in Sb(x) {
      RfPosFacts(x, r);
      var w := x.rf[r].i;
      assert (w, r) in RfEdges(x);
      ReachEdge(g, w, r);
      if (r, w) in Sb(x) {
        ReachEdge(g, r, w);
        ReachTrans(g, r, w, r);
      }
    }
  }

  /** Sequential consistency implies acceptance. */
  lemma ScImpliesConsistent(x: Exec)
    requires Candidate(x) && Atomic(x) && SequentiallyConsistent(x)
    ensures Consistent(x)
  {
    var g, sbrf := ScGraph(x), Sb(x) + RfEdges(x);
    AcyclicMonotone(sbrf, g);
    forall a: nat, b: nat | Hb(x, a, b) ensures a != b && !Eco(x, b, a) {
      HbInsideSbRf(x, a, b);
      ReachMonotone(sbrf, g, a, b);
      if Eco(x, b, a) {
        ReachMonotone(Communication(x), g, b, a);
        ReachTrans(g, a, b, a);
      }
    }
  }
}
