/** One tick of the simulation loop in sim.py: the pair scan that queues
    merges and applies gravity, the application of the queued merges to the
    body list, and the final drift of every surviving body; then the main
    loop that repeats the tick. */
module Sim {
  import opened Numerics
  import opened Gravity
  import opened Collision
  import opened MergeQueue
  import opened PairScan

  // ---------------------------------------------------------------------
  // The whole tick on states.

  /** Every body drifted once with the same time step. */
  function DriftAll(s: seq<BodyState>, dt: real): (r: seq<BodyState>)
    ensures |r| == |s| && forall k :: 0 <= k < |s| ==> r[k] == Drift(s[k], dt)
  {
    seq(|s|, k requires 0 <= k < |s| => Drift(s[k], dt))
  }

  /** Drifting moves bodies but changes no mass and no momentum. */
  lemma {:induction false} DriftAllKeepsTotals(s: seq<BodyState>, dt: real, q: Quantity)
    ensures Total(DriftAll(s, dt), q) == Total(s, q)
    decreases |s|
  {
    if s != [] {
      DriftAllKeepsTotals(s[1..], dt, q);
      assert DriftAll(s, dt)[1..] == DriftAll(s[1..], dt);
    }
  }

  /** Applying merges whose bodies all have positive mass leaves only bodies
      of positive mass, whether or not a merge raises. */
  lemma {:induction false} MergesKeepPositive(s: seq<BodyState>, q: seq<Pending<BodyState>>)
    requires AllPositive(s)
    requires forall k :: 0 <= k < |q| ==> q[k].merged.mass > 0.0
    ensures AllPositive(ApplyMerges(s, q).bodies)
    decreases |q|
  {
    if q != [] {
      MergesKeepPositive(s, q[..|q| - 1]);
      var r := ApplyMerges(s, q[..|q| - 1]);
      if r.Done? {
        var e := q[|q| - 1];
        var t := r.bodies;
        if e.i < |t| && e.j < |t| {
          var u := t[e.i := e.merged];
          assert forall k :: 0 <= k < |u| ==> u[k].mass > 0.0;
          assert ApplyMerge(t, e).bodies == u[..e.j] + u[e.j + 1..];
        }
      }
    }
  }

  /** One tick: the scan, the merges, then the drift of every survivor. A
      tick that completes leaves only bodies of positive mass. */
  function Tick(s: seq<BodyState>, dt: real, m: MathLib): (r: Outcome<BodyState>)
    requires m.Lawful() && AllPositive(s)
    ensures r.Done? ==> AllPositive(r.bodies)
  {
    var scanned := Scan(Ops(dt, m), s, [], ScanOrderChecked(|s|), dt, m);
    TickKeepsPositive(s, dt, m);
    match ApplyMerges(scanned.0, scanned.1)
    case IndexError(t) => IndexError(t)
    case Done(t) => Done(DriftAll(t, dt))
  }

  lemma TickKeepsPositive(s: seq<BodyState>, dt: real, m: MathLib)
    requires m.Lawful() && AllPositive(s)
    ensures var scanned := Scan(Ops(dt, m), s, [], ScanOrderChecked(|s|), dt, m);
      AllPositive(ApplyMerges(scanned.0, scanned.1).bodies)
  {
    var ps, o := ScanOrderChecked(|s|), Ops(dt, m);
    var scanned := Scan(o, s, [], ps, dt, m);
    ScanMergedMasses(o, s, [], ps, dt, m);
    MergesKeepPositive(scanned.0, scanned.1);
  }

  /** `n` ticks in a row, stopping at the first IndexError. */
  function Ticks(s: seq<BodyState>, dt: real, m: MathLib, n: nat): (r: Outcome<BodyState>)
    requires m.Lawful() && AllPositive(s)
    ensures r.Done? ==> AllPositive(r.bodies)
  {
    if n == 0 then Done(s)
    else
      match Ticks(s, dt, m, n - 1)
      case IndexError(t) => IndexError(t)
      case Done(t) => Tick(t, dt, m)
  }

  /** With no pair to visit the tick is pure drift: no self-force. */
  lemma TickFewBodies(s: seq<BodyState>, dt: real, m: MathLib)
    requires m.Lawful() && AllPositive(s) && |s| <= 1
    ensures Tick(s, dt, m) == Done(DriftAll(s, dt))
  {
    ScanOrderSmall(|s|);
  }

  /** With no overlapping pair, the scan finds no collision. */
  lemma {:induction false} NoCollisionsFound(s: seq<BodyState>, ps: seq<Pair>, m: MathLib)
    requires m.Lawful() && PairsWithin(ps, |s|)
    requires forall a, b :: 0 <= a < b < |s| ==> !Collides(s[a], s[b], m)
    ensures |Colliding(s, ps, m)| == 0
    decreases |ps|
  {
    if ps != [] {
      NoCollisionsFound(s, ps[..|ps| - 1], m);
    }
  }

  /** A tick in which no pair collides keeps every body and conserves the
      total mass and the total momentum. */
  lemma TickWithoutCollisions(s: seq<BodyState>, dt: real, m: MathLib, q: Quantity)
    requires m.Lawful() && AllPositive(s)
    requires forall a, b :: 0 <= a < b < |s| ==> !Collides(s[a], s[b], m)
    ensures Tick(s, dt, m).Done?
    ensures |Tick(s, dt, m).bodies| == |s|
    ensures Total(Tick(s, dt, m).bodies, q) == Total(s, q)
  {
    var ps, o := ScanOrder(|s|), Ops(dt, m);
    ScanOrderExact(|s|);
    NoCollisionsFound(s, ps, m);
    ScanQueuesStartCollisions(o, s, [], ps, dt, m);
    var scanned := Scan(o, s, [], ps, dt, m);
    assert |Indices(scanned.1)| == 0;
    assert scanned.1 == [];
    ScanConservesTotals(o, s, [], ps, dt, m, q);
    DriftAllKeepsTotals(scanned.0, dt, q);
  }

  /** A tick that completes removes exactly one body per colliding pair. */
  lemma TickRemovesOnePerCollision(s: seq<BodyState>, dt: real, m: MathLib)
    requires m.Lawful() && AllPositive(s)
    requires Tick(s, dt, m).Done?
    ensures PairsWithin(ScanOrder(|s|), |s|)
    ensures |Tick(s, dt, m).bodies| == |s| - |Colliding(s, ScanOrder(|s|), m)|
  {
    var ps, o := ScanOrder(|s|), Ops(dt, m);
    ScanOrderExact(|s|);
    ScanQueuesStartCollisions(o, s, [], ps, dt, m);
    var scanned := Scan(o, s, [], ps, dt, m);
    assert |Indices(scanned.1)| == |Colliding(s, ps, m)|;
    ApplyMergesLength(scanned.0, scanned.1);
  }

  /** A tick with exactly one colliding pair replaces two bodies by one and
      conserves the total mass. */
  lemma TickOneCollision(s: seq<BodyState>, dt: real, m: MathLib)
    requires m.Lawful() && AllPositive(s)
    requires |Colliding(s, ScanOrderChecked(|s|), m)| == 1
    ensures Tick(s, dt, m).Done?
    ensures |Tick(s, dt, m).bodies| == |s| - 1
    ensures Total(Tick(s, dt, m).bodies, Mass) == Total(s, Mass)
  {
    var ps, o := ScanOrderChecked(|s|), Ops(dt, m);
    ScanQueuesStartCollisions(o, s, [], ps, dt, m);
    ScanMergedMasses(o, s, [], ps, dt, m);
    ScanKeepsPlaces(o, s, [], ps, dt, m);
    ScanConservesTotals(o, s, [], ps, dt, m, Mass);
    var scanned := Scan(o, s, [], ps, dt, m);
    var t, e := scanned.0, scanned.1[0];
    assert [] + [e] == scanned.1;
    ApplyMergesSnoc(t, [], e);
    ApplyMergeTotal(t, e, Mass);
    DriftAllKeepsTotals(ApplyMerge(t, e).bodies, dt, Mass);
  }

  /** `ScanOrder` with its range fact, for use in a precondition. */
  function ScanOrderChecked(n: nat): (ps: seq<Pair>)
    ensures ps == ScanOrder(n) && PairsWithin(ps, n)
  {
    ScanOrderExact(n);
    ScanOrder(n)
  }

  /** Three mutually overlapping bodies make the tick raise an IndexError. */
  lemma ThreeWayCollisionRaises(s: seq<BodyState>, dt: real, m: MathLib)
    requires m.Lawful() && AllPositive(s) && |s| == 3
    requires Collides(s[0], s[1], m) && Collides(s[0], s[2], m) && Collides(s[1], s[2], m)
    ensures Tick(s, dt, m).IndexError?
  {
    var o := Ops(dt, m);
    assert o.AgreesAt(s[0], s[1], dt, m) && o.AgreesAt(s[0], s[2], dt, m) && o.AgreesAt(s[1], s[2], dt, m);
    ThreeWayScan(o, s, dt, m);
    var scanned := Scan(o, s, [], ScanOrderChecked(|s|), dt, m);
    assert s == [s[0], s[1], s[2]];
    ThreeWayMergeRaises(s[0], s[1], s[2], o.merge(s[0], s[1]), o.merge(s[0], s[2]), o.merge(s[1], s[2]));
    assert ApplyMerges(scanned.0, scanned.1).IndexError?;
  }

  /** The scan of three bodies that all collide queues all three pairs and
      kicks none. */
  lemma {:induction false} ThreeWayScan(o: PairOps, s: seq<BodyState>, dt: real, m: MathLib)
    requires o.Models(dt, m) && AllPositive(s) && |s| == 3
    requires o.collides(s[0], s[1]) && o.collides(s[0], s[2]) && o.collides(s[1], s[2])
    ensures Scan(o, s, [], ScanOrderChecked(3), dt, m) ==
      (s, [Pending(0, 1, o.merge(s[0], s[1])), Pending(0, 2, o.merge(s[0], s[2])), Pending(1, 2, o.merge(s[1], s[2]))])
  {
    var p01: Pair, p02: Pair, p12: Pair := (0, 1), (0, 2), (1, 2);
    ThreeWayOrder();
    var e1 := Pending(0, 1, o.merge(s[0], s[1]));
    var e2 := Pending(0, 2, o.merge(s[0], s[2]));
    var ps: seq<Pair> := [p01, p02, p12];
    var e3 := Pending(1, 2, o.merge(s[1], s[2]));
    assert ps[..2] == [p01, p02];
    assert ps[..2][..1] == [p01];
    assert |ps[..2][..1][..0]| == 0;
    assert VisitPair(o, s, [], p01, dt, m) == (s, [e1]) by { assert [] + [e1] == [e1]; }
    assert VisitPair(o, s, [e1], p02, dt, m) == (s, [e1, e2]) by { assert [e1] + [e2] == [e1, e2]; }
    assert VisitPair(o, s, [e1, e2], p12, dt, m) == (s, [e1, e2, e3]) by { assert [e1, e2] + [e3] == [e1, e2, e3]; }
    assert Scan(o, s, [], [], dt, m) == (s, []);
    assert Scan(o, s, [], [p01], dt, m) == (s, [e1]);
    assert Scan(o, s, [], [p01, p02], dt, m) == (s, [e1, e2]);
    assert Scan(o, s, [], ps, dt, m) == (s, [e1, e2, e3]);
  }

  /** A merge sees the kicks of the pairs visited before it: when bodies 0
      and 1 pass but 0 and 2 collide, the body queued for (0, 2), the second
      pair of every scan over three or more bodies, carries the velocity
      body 0 took from body 1, not its start-of-tick velocity. */
  lemma MergeSeesEarlierKicks(s: seq<BodyState>, dt: real, m: MathLib)
    requires m.Lawful() && AllPositive(s) && |s| >= 3
    requires !Collides(s[0], s[1], m) && Collides(s[0], s[2], m)
    ensures Scan(Ops(dt, m), s, [], [(0, 1), (0, 2)], dt, m).1 == [Pending(0, 2, Merge(Kick(s[0], s[1], dt, m).0, s[2]))]
  {
    var o := Ops(dt, m);
    var p01: Pair, p02: Pair := (0, 1), (0, 2);
    ScanKicksCurrentStates(o, s, [], 0, 1, dt, m);
    assert [] + [p01] == [p01];
    var s1 := Scan(o, s, [], [p01], dt, m).0;
    assert s1[0] == Kick(s[0], s[1], dt, m).0 && s1[2] == s[2];
    ScanQueuesCurrentStates(o, s, [p01], 0, 2, dt, m);
    assert [p01] + [p02] == [p01, p02];
  }

  /** When only bodies 0 and 1 of three collide, the scan queues the merge of
      their start-of-tick states and then still kicks both of them against
      body 2. */
  lemma {:induction false} LateKicksScan(o: PairOps, s: seq<BodyState>, dt: real, m: MathLib)
    requires o.Models(dt, m) && AllPositive(s) && |s| == 3
    requires Collides(s[0], s[1], m) && !Collides(s[0], s[2], m) && !Collides(s[1], s[2], m)
    ensures var k := Kick(s[0], s[2], dt, m);
      var k' := Kick(s[1], k.1, dt, m);
      Scan(o, s, [], ScanOrderChecked(3), dt, m)
        == (s[0 := k.0][1 := k'.0][2 := k'.1], [Pending(0, 1, Merge(s[0], s[1]))])
  {
    var p01: Pair, p02: Pair, p12: Pair := (0, 1), (0, 2), (1, 2);
    ThreeWayOrder();
    var ps: seq<Pair> := [p01, p02, p12];
    assert ps[..2] == [p01, p02];
    assert ps[..2][..1] == [p01];
    assert |ps[..2][..1][..0]| == 0;
    var e1 := Pending(0, 1, Merge(s[0], s[1]));
    VisitQueues(o, s, [], 0, 1, dt, m);
    assert VisitPair(o, s, [], p01, dt, m) == (s, [e1]) by { assert [] + [e1] == [e1]; }
    VisitKicks(o, s, [e1], 0, 2, dt, m);
    var k := Kick(s[0], s[2], dt, m);
    var s2 := s[0 := k.0][2 := k.1];
    assert VisitPair(o, s, [e1], p02, dt, m) == (s2, [e1]);
    CollidesIgnoresVelocity(s[1], s2[1], s[2], s2[2], m);
    VisitKicks(o, s2, [e1], 1, 2, dt, m);
    var k' := Kick(s[1], k.1, dt, m);
    assert VisitPair(o, s2, [e1], p12, dt, m) == (s2[1 := k'.0][2 := k'.1], [e1]);
    assert s2[1 := k'.0][2 := k'.1] == s[0 := k.0][1 := k'.0][2 := k'.1];
    assert Scan(o, s, [], [], dt, m) == (s, []);
    assert Scan(o, s, [], [p01], dt, m) == (s, [e1]);
    assert Scan(o, s, [], [p01, p02], dt, m) == (s2, [e1]);
  }

  /** With only bodies 0 and 1 of three colliding, the tick leaves the merge
      of their start-of-tick states and body 2 after both its kicks, each
      drifted once. */
  lemma {:induction false} TickLateKicks(s: seq<BodyState>, dt: real, m: MathLib)
    requires m.Lawful() && AllPositive(s) && |s| == 3
    requires Collides(s[0], s[1], m) && !Collides(s[0], s[2], m) && !Collides(s[1], s[2], m)
    ensures var k := Kick(s[0], s[2], dt, m);
      Tick(s, dt, m) == Done(DriftAll([Merge(s[0], s[1]), Kick(s[1], k.1, dt, m).1], dt))
  {
    var o := Ops(dt, m);
    LateKicksScan(o, s, dt, m);
    var scanned := Scan(o, s, [], ScanOrderChecked(3), dt, m);
    var t, e := scanned.0, Pending(0, 1, Merge(s[0], s[1]));
    assert [] + [e] == scanned.1;
    ApplyMergesSnoc(t, [], e);
    assert ApplyMerge(t, e).bodies == [e.merged, t[2]];
  }

  lemma TotalOfTwo(a: BodyState, b: BodyState, q: Quantity)
    ensures Total([a, b], q) == Measure(q, a) + Measure(q, b)
  {
    var s := [a, b];
    assert Total(s[1..][1..], q) == 0.0 by { assert s[1..][1..] == []; }
    assert Total(s[1..], q) == Measure(q, b) + Total(s[1..][1..], q);
  }

  lemma TotalOfThree(s: seq<BodyState>, q: Quantity)
    requires |s| == 3
    ensures Total(s, q) == Measure(q, s[0]) + Measure(q, s[1]) + Measure(q, s[2])
  {
    var t := s[1..][1..];
    assert Total(t[1..], q) == 0.0 by { assert t[1..] == []; }
    assert Total(t, q) == Measure(q, s[2]) + Total(t[1..], q);
    assert Total(s[1..], q) == Measure(q, s[1]) + Total(t, q);
  }

  /** A body kicked by `a` and then by `b` loses both forces' shares of
      its momentum along x. */
  lemma KickedTwiceMomentum(a: BodyState, b: BodyState, c: BodyState, dt: real, m: MathLib)
    requires m.Lawful() && a.mass > 0.0 && b.mass > 0.0 && c.mass > 0.0
    ensures var k := Kick(a, c, dt, m);
      Measure(MomentumX, Kick(b, k.1, dt, m).1)
        == Measure(MomentumX, c) - (Force(a, c, m).0 + Force(b, c, m).0) * dt
  {
    var k := Kick(a, c, dt, m);
    var k' := Kick(b, k.1, dt, m);
    ForceIgnoresVelocity(b, k.1, c, m);
    LostShare(c.mass, c.vx, k.1.vx, Force(a, c, m).0, dt);
    LostShare(c.mass, k.1.vx, k'.1.vx, Force(b, c, m).0, dt);
  }

  /** The momentum along x of the bodies `TickLateKicks` leaves: the merged
      pair keeps its start-of-tick momentum, body 2 has lost both forces'
      shares. */
  lemma {:induction false} LateKicksMomentum(s: seq<BodyState>, dt: real, m: MathLib)
    requires m.Lawful() && AllPositive(s) && |s| == 3
    ensures var k := Kick(s[0], s[2], dt, m);
      Total(DriftAll([Merge(s[0], s[1]), Kick(s[1], k.1, dt, m).1], dt), MomentumX)
        == Total(s, MomentumX) - (Force(s[0], s[2], m).0 + Force(s[1], s[2], m).0) * dt
  {
    var k := Kick(s[0], s[2], dt, m);
    var k' := Kick(s[1], k.1, dt, m);
    KickedTwiceMomentum(s[0], s[1], s[2], dt, m);
    var after := [Merge(s[0], s[1]), k'.1];
    assert Measure(MomentumX, after[0]) == Measure(MomentumX, s[0]) + Measure(MomentumX, s[1]);
    TotalOfTwo(after[0], after[1], MomentumX);
    TotalOfThree(s, MomentumX);
    DriftAllKeepsTotals(after, dt, MomentumX);
  }

  /** Body 2, lying to the left of bodies 0 and 1, pulls both of them towards
      negative x. Body 2 takes the opposite kicks, so over a positive time
      step the bodies `TickLateKicks` leaves have more x momentum than the
      start. */
  lemma {:induction false} LateKicksGain(s: seq<BodyState>, dt: real, m: MathLib)
    requires m.Lawful() && AllPositive(s) && |s| == 3
    requires dt > 0.0 && s[2].x < s[0].x && s[2].x < s[1].x
    ensures (Force(s[0], s[2], m).0 + Force(s[1], s[2], m).0) * dt < 0.0
    ensures var k := Kick(s[0], s[2], dt, m);
      Total(DriftAll([Merge(s[0], s[1]), Kick(s[1], k.1, dt, m).1], dt), MomentumX) > Total(s, MomentumX)
  {
    ForceAttracts(s[0], s[2], m);
    ForceAttracts(s[1], s[2], m);
    LateKicksMomentum(s, dt, m);
  }

  /** The tick does not conserve momentum. With only bodies 0 and 1 of three
      colliding, the merged body carries their momentum from before the
      kicks they later exchange with body 2, while body 2 keeps its side of
      those kicks: the total changes by exactly body 2's gain. */
  lemma {:induction false} TickKeepsLateKicks(s: seq<BodyState>, dt: real, m: MathLib)
    requires m.Lawful() && AllPositive(s) && |s| == 3
    requires Collides(s[0], s[1], m) && !Collides(s[0], s[2], m) && !Collides(s[1], s[2], m)
    ensures Tick(s, dt, m).Done? && |Tick(s, dt, m).bodies| == 2
    ensures Total(Tick(s, dt, m).bodies, MomentumX)
         == Total(s, MomentumX) - (Force(s[0], s[2], m).0 + Force(s[1], s[2], m).0) * dt
  {
    TickLateKicks(s, dt, m);
    LateKicksMomentum(s, dt, m);
  }

  /** A concrete case: when body 2 lies to the left of both colliding bodies,
      both pull it to the right and the total momentum along x grows. */
  lemma {:induction false} TickGainsMomentum(s: seq<BodyState>, dt: real, m: MathLib)
    requires m.Lawful() && AllPositive(s) && |s| == 3
    requires Collides(s[0], s[1], m) && !Collides(s[0], s[2], m) && !Collides(s[1], s[2], m)
    requires dt > 0.0 && s[2].x < s[0].x && s[2].x < s[1].x
    ensures Tick(s, dt, m).Done?
    ensures Total(Tick(s, dt, m).bodies, MomentumX) > Total(s, MomentumX)
  {
    TickLateKicks(s, dt, m);
    LateKicksGain(s, dt, m);
  }

  /** The scan order over three bodies. */
  lemma ThreeWayOrder()
    ensures ScanOrderChecked(3) == [(0, 1), (0, 2), (1, 2)]
  {
    assert Row(0, 1, 3) == [(0, 1), (0, 2)];
    assert Row(1, 2, 3) == [(1, 2)];
    assert |Row(2, 3, 3)| == 0;
    assert PairsBelow(3, 1) == [(0, 1), (0, 2)];
    assert PairsBelow(3, 3) == [(0, 1), (0, 2), (1, 2)];
  }

  // ---------------------------------------------------------------------
  // The tick on the live body objects.

  /** The states of a list of bodies. */
  function StatesOf(bs: seq<Body>): (r: seq<BodyState>)
    reads set b | b in bs
    ensures |r| == |bs| && forall k :: 0 <= k < |bs| ==> r[k] == bs[k].Value()
  {
    seq(|bs|, k reads bs requires 0 <= k < |bs| => bs[k].Value())
  }

  /** A queued merge with the state of its merged body. */
  function PendingState(e: Pending<Body>): (r: Pending<BodyState>)
    reads e.merged
    ensures r.i == e.i && r.j == e.j && r.merged == e.merged.Value()
  {
    Pending(e.i, e.j, e.merged.Value())
  }

  /** The queued merges with the states of their merged bodies. */
  function PendingStates(q: seq<Pending<Body>>): (r: seq<Pending<BodyState>>)
    reads set e | e in q :: e.merged
    ensures |r| == |q| && forall k :: 0 <= k < |q| ==> r[k] == PendingState(q[k])
  {
    seq(|q|, k reads set e | e in q :: e.merged requires 0 <= k < |q| => PendingState(q[k]))
  }

  function MergedBodies(q: seq<Pending<Body>>): set<Body> {
    set e | e in q :: e.merged
  }

  predicate Distinct(bs: seq<Body>) {
    forall a, b :: 0 <= a < b < |bs| ==> bs[a] != bs[b]
  }

  /** The merged bodies of a queue are distinct objects, none of them in `bs`. */
  predicate Apart(q: seq<Pending<Body>>, bs: seq<Body>) {
    && (forall k :: 0 <= k < |q| ==> q[k].merged !in bs)
    && (forall k, l :: 0 <= k < l < |q| ==> q[k].merged != q[l].merged)
  }

  /** Popping index `j` keeps the states of the other bodies in order, keeps
      them distinct and adds no body. */
  lemma RemoveKeeps(bs: seq<Body>, j: nat)
    requires j < |bs|
    ensures StatesOf(bs[..j] + bs[j + 1..]) == StatesOf(bs)[..j] + StatesOf(bs)[j + 1..]
    ensures Distinct(bs) ==> Distinct(bs[..j] + bs[j + 1..])
    ensures forall b :: b in bs[..j] + bs[j + 1..] ==> b in bs
  {
    var r := bs[..j] + bs[j + 1..];
    assert forall t :: 0 <= t < j ==> r[t] == bs[t];
    assert forall t :: j <= t < |r| ==> r[t] == bs[t + 1];
  }

  /** The body list the main loop owns and updates every tick. */
  class Simulation {
    var bodies: seq<Body>

    ghost predicate Valid()
      reads this
    {
      Distinct(bodies)
    }

    constructor (initial: seq<Body>)
      requires Distinct(initial)
      ensures Valid() && bodies == initial
    {
      bodies := initial;
    }

    /** The body of the inner scan loop for the pair (i, j), from the scan
        state `(s, p)` that the bodies and the queue hold. */
    method Visit(i: nat, j: nat, dt: real, m: MathLib, q0: seq<Pending<Body>>, ghost o: PairOps,
                 ghost s: seq<BodyState>, ghost p: seq<Pending<BodyState>>) returns (q: seq<Pending<Body>>)
      requires Valid() && o.Models(dt, m) && i < j < |bodies|
      requires s == StatesOf(bodies) && p == PendingStates(q0)
      requires AllPositive(s) && Apart(q0, bodies)
      modifies bodies[i], bodies[j]
      ensures Apart(q, bodies)
      ensures |q0| <= |q| && forall k :: 0 <= k < |q0| ==> q[k] == q0[k]
      ensures forall k :: |q0| <= k < |q| ==> fresh(q[k].merged)
      ensures StatesOf(bodies) == VisitPair(o, s, p, (i, j), dt, m).0
      ensures PendingStates(q) == VisitPair(o, s, p, (i, j), dt, m).1
    {
      assert s[i] == bodies[i].Value() && s[j] == bodies[j].Value();
      assert o.AgreesAt(s[i], s[j], dt, m);
      if Collides(bodies[i].Value(), bodies[j].Value(), m) {
        var merged := HandleCollision(bodies[i], bodies[j]);
        q := q0 + [Pending(i, j, merged)];
        assert StatesOf(bodies) == s;
        assert PendingStates(q) == p + [Pending(i, j, Merge(s[i], s[j]))];
      } else {
        UpdateVelocities(bodies[i], bodies[j], dt, m);
        q := q0;
        ghost var k := Kick(s[i], s[j], dt, m);
        assert StatesOf(bodies) == s[i := k.0][j := k.1];
        assert PendingStates(q) == p;
      }
    }

    /** The outer scan loop has finished the rows before `i`: the bodies and
        the queue hold the scan state of the pairs those rows visit, from
        the states `s0` and the empty queue. */
    ghost predicate PrefixDone(i: nat, q: seq<Pending<Body>>, o: PairOps, s0: seq<BodyState>, dt: real, m: MathLib)
      reads this, set b | b in bodies, set e | e in q :: e.merged
    {
      && i <= |bodies| == |s0| && o.Models(dt, m) && AllPositive(s0)
      && Apart(q, bodies)
      && PairsWithin(PairsBelow(|s0|, i), |s0|)
      && (StatesOf(bodies), PendingStates(q)) == Scan(o, s0, [], PairsBelow(|s0|, i), dt, m)
    }

    /** The inner scan loop: the pairs (i, j) for every j > i, in order,
        from the scan state of the pairs visited before row `i`. */
    method ScanRow(i: nat, dt: real, m: MathLib, q0: seq<Pending<Body>>, ghost o: PairOps, ghost s0: seq<BodyState>)
      returns (q: seq<Pending<Body>>)
      requires Valid() && i < |bodies| == |s0| && o.Models(dt, m) && AllPositive(s0)
      requires Apart(q0, bodies) && PairsWithin(Visited(|s0|, i, i + 1), |s0|)
      requires StatesOf(bodies) == Scan(o, s0, [], Visited(|s0|, i, i + 1), dt, m).0
      requires PendingStates(q0) == Scan(o, s0, [], Visited(|s0|, i, i + 1), dt, m).1
      modifies set b | b in bodies
      ensures Apart(q, bodies) && PairsWithin(Visited(|s0|, i, |s0|), |s0|)
      ensures StatesOf(bodies) == Scan(o, s0, [], Visited(|s0|, i, |s0|), dt, m).0
      ensures PendingStates(q) == Scan(o, s0, [], Visited(|s0|, i, |s0|), dt, m).1
      ensures |q0| <= |q| && forall k :: 0 <= k < |q0| ==> q[k] == q0[k]
      ensures forall k :: |q0| <= k < |q| ==> fresh(q[k].merged)
    {
      q := q0;
      var j := i + 1;
      ghost var n := |s0|;
      ghost var done := Visited(n, i, j);
      ghost var cur := Scan(o, s0, [], done, dt, m);
      while j < |bodies|
        invariant i < j <= |bodies| == n
        invariant Apart(q, bodies)
        invariant done == Visited(n, i, j) && PairsWithin(done, n)
        invariant cur == Scan(o, s0, [], done, dt, m)
        invariant StatesOf(bodies) == cur.0 && PendingStates(q) == cur.1
        invariant |q0| <= |q| && forall k :: 0 <= k < |q0| ==> q[k] == q0[k]
        invariant forall k :: |q0| <= k < |q| ==> fresh(q[k].merged)
      {
        var next := j + 1;
        VisitedNext(n, i, j, next);
        ScanSnoc(o, s0, [], done, (i, j), dt, m);
        q := Visit(i, j, dt, m, q, o, cur.0, cur.1);
        cur := VisitPair(o, cur.0, cur.1, (i, j), dt, m);
        done := done + [(i, j)];
        j := next;
      }
      assert j == n;
    }

    /** The pair scan: every row in order, queueing the merges. The list is
        neither resized nor reassigned. */
    method ScanPairs(dt: real, m: MathLib, ghost o: PairOps) returns (queue: seq<Pending<Body>>)
      requires Valid() && o.Models(dt, m)
      requires AllPositive(StatesOf(bodies))
      modifies set b | b in bodies
      ensures bodies == old(bodies) && Apart(queue, bodies)
      ensures forall k :: 0 <= k < |queue| ==> fresh(queue[k].merged)
      ensures (StatesOf(bodies), PendingStates(queue)) == Scan(o, old(StatesOf(bodies)), [], ScanOrderChecked(|bodies|), dt, m)
    {
      var n := |bodies|;
      ghost var s0 := StatesOf(bodies);
      queue := [];
      var i := 0;
      while i < n
        invariant i <= n && PrefixDone(i, queue, o, s0, dt, m)
        invariant forall k :: 0 <= k < |queue| ==> fresh(queue[k].merged)
      {
        var next := i + 1;
        VisitedEnds(|s0|, i, next);
        queue := ScanRow(i, dt, m, queue, o, s0);
        i := next;
      }
      assert i == n && ScanOrderChecked(|bodies|) == PairsBelow(|s0|, i);
    }

    /** One iteration of the merge loop: `bodies[i] = merged` then
        `bodies.pop(j)`, stopping at the assignment or the pop that raises. */
    method ApplyOne(e: Pending<Body>) returns (ok: bool)
      requires Valid() && e.merged !in bodies
      modifies this
      ensures Valid()
      ensures ok == ApplyMerge(old(StatesOf(bodies)), PendingState(e)).Done?
      ensures StatesOf(bodies) == ApplyMerge(old(StatesOf(bodies)), PendingState(e)).bodies
      ensures forall b :: b in bodies ==> b in old(bodies) || b == e.merged
    {
      ghost var before := StatesOf(bodies);
      if e.i >= |bodies| {
        return false;
      }
      bodies := bodies[e.i := e.merged];
      assert StatesOf(bodies) == before[e.i := e.merged.Value()];
      if e.j >= |bodies| {
        return false;
      }
      RemoveKeeps(bodies, e.j);
      bodies := bodies[..e.j] + bodies[e.j + 1..];
      return true;
    }

    /** The merge loop: every queued merge in turn, stopping at a raise. */
    method ApplyQueue(queue: seq<Pending<Body>>) returns (ok: bool)
      requires Valid() && Apart(queue, bodies)
      modifies this
      ensures Valid()
      ensures ok == ApplyMerges(old(StatesOf(bodies)), PendingStates(queue)).Done?
      ensures StatesOf(bodies) == ApplyMerges(old(StatesOf(bodies)), PendingStates(queue)).bodies
      ensures forall b :: b in bodies ==> b in old(bodies) || b in MergedBodies(queue)
    {
      ghost var s0 := StatesOf(bodies);
      ghost var pq := PendingStates(queue);
      var k := 0;
      while k < |queue|
        invariant k <= |queue| && Valid()
        invariant forall l :: k <= l < |queue| ==> queue[l].merged !in bodies
        invariant ApplyMerges(s0, pq[..k]) == Done(StatesOf(bodies))
        invariant forall b :: b in bodies ==> b in old(bodies) || b in MergedBodies(queue)
      {
        ApplyMergesPrefix(s0, pq, k);
        var e := queue[k];
        assert e.merged in MergedBodies(queue);
        ok := ApplyOne(e);
        if !ok {
          return;
        }
        k := k + 1;
      }
      assert pq[..|pq|] == pq;
      return true;
    }

    /** The drift loop: every surviving body moves once. */
    method DriftBodies(dt: real)
      requires Valid()
      modifies set b | b in bodies
      ensures StatesOf(bodies) == DriftAll(old(StatesOf(bodies)), dt)
    {
      ghost var s0 := StatesOf(bodies);
      for t := 0 to |bodies|
        invariant forall u :: 0 <= u < t ==> bodies[u].Value() == Drift(s0[u], dt)
        invariant forall u :: t <= u < |bodies| ==> bodies[u].Value() == s0[u]
      {
        bodies[t].UpdatePosition(dt);
      }
    }

    /** One tick of the main loop, with the drawing left out. It completes
        or raises an IndexError, exactly as `Tick` says, and the bodies it
        then holds are the old ones or merged bodies it created. */
    method Step(dt: real, m: MathLib) returns (ok: bool)
      requires Valid() && m.Lawful()
      requires AllPositive(StatesOf(bodies))
      modifies this, set b | b in bodies
      ensures Valid()
      ensures ok == Tick(old(StatesOf(bodies)), dt, m).Done?
      ensures StatesOf(bodies) == Tick(old(StatesOf(bodies)), dt, m).bodies
      ensures forall b :: b in bodies ==> b in old(bodies) || fresh(b)
    {
      var queue := ScanPairs(dt, m, Ops(dt, m));
      ok := ApplyQueue(queue);
      if !ok {
        return;
      }
      DriftBodies(dt);
    }
  }
}
