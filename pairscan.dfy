/** The pair scan of one tick (sim.py, the nested loop of the main loop):
    every pair i < j in order either queues a merge or takes its gravity
    kicks. Also the totals of mass and momentum over a list of bodies. */
module PairScan {
  import opened Numerics
  import opened Gravity
  import opened Collision
  import opened MergeQueue

  type Pair = (nat, nat)

  // ---------------------------------------------------------------------
  // The order in which the scan visits index pairs.

  /** The pairs (i, k) for lo <= k < hi, in increasing k. */
  function Row(i: nat, lo: nat, hi: nat): seq<Pair>
    decreases hi
  {
    if hi <= lo then [] else Row(i, lo, hi - 1) + [(i, hi - 1)]
  }

  /** The pairs the scan over `n` bodies visits before row `i`. */
  function PairsBelow(n: nat, i: nat): seq<Pair>
  {
    if i == 0 then [] else PairsBelow(n, i - 1) + Row(i - 1, i, n)
  }

  /** Every pair the scan over `n` bodies visits, in visiting order. */
  function ScanOrder(n: nat): seq<Pair>
  {
    PairsBelow(n, n)
  }

  predicate LexLess(p: Pair, q: Pair) {
    p.0 < q.0 || (p.0 == q.0 && p.1 < q.1)
  }

  predicate PairsWithin(ps: seq<Pair>, n: nat) {
    forall k :: 0 <= k < |ps| ==> ps[k].0 < ps[k].1 < n
  }

  lemma {:induction false} RowFacts(i: nat, lo: nat, hi: nat)
    requires lo <= hi
    ensures |Row(i, lo, hi)| == hi - lo
    ensures forall k :: 0 <= k < hi - lo ==> Row(i, lo, hi)[k] == (i, lo + k)
    decreases hi
  {
    if hi > lo {
      RowFacts(i, lo, hi - 1);
    }
  }

  lemma {:induction false} PairsBelowWithin(n: nat, i: nat)
    requires i <= n
    ensures forall k :: 0 <= k < |PairsBelow(n, i)| ==>
      PairsBelow(n, i)[k].0 < i && PairsBelow(n, i)[k].0 < PairsBelow(n, i)[k].1 < n
  {
    if i > 0 {
      PairsBelowWithin(n, i - 1);
      RowFacts(i - 1, i, n);
      var prev: seq<Pair>, row: seq<Pair> := PairsBelow(n, i - 1), Row(i - 1, i, n);
      forall k | 0 <= k < |prev + row|
        ensures (prev + row)[k].0 < i && (prev + row)[k].0 < (prev + row)[k].1 < n
      {
        if k < |prev| {
          assert (prev + row)[k] == prev[k];
        } else {
          assert (prev + row)[k] == row[k - |prev|];
        }
      }
    }
  }

  lemma {:induction false} PairsBelowCovers(n: nat, i: nat)
    requires i <= n
    ensures forall a: nat, b: nat :: a < i && a < b < n ==> (a, b) in PairsBelow(n, i)
  {
    if i > 0 {
      PairsBelowCovers(n, i - 1);
      RowFacts(i - 1, i, n);
      var prev: seq<Pair>, row: seq<Pair> := PairsBelow(n, i - 1), Row(i - 1, i, n);
      forall a: nat, b: nat | a < i && a < b < n
        ensures (a, b) in prev + row
      {
        if a < i - 1 {
          assert (a, b) in prev;
        } else {
          assert row[b - i] == (a, b);
        }
      }
    }
  }

  lemma {:induction false} PairsBelowSorted(n: nat, i: nat)
    requires i <= n
    ensures forall k, l :: 0 <= k < l < |PairsBelow(n, i)| ==> LexLess(PairsBelow(n, i)[k], PairsBelow(n, i)[l])
  {
    if i > 0 {
      PairsBelowSorted(n, i - 1);
      PairsBelowWithin(n, i - 1);
      RowFacts(i - 1, i, n);
      var prev: seq<Pair>, row: seq<Pair> := PairsBelow(n, i - 1), Row(i - 1, i, n);
      forall k, l | 0 <= k < l < |prev + row|
        ensures LexLess((prev + row)[k], (prev + row)[l])
      {
        if l < |prev| {
          assert (prev + row)[k] == prev[k] && (prev + row)[l] == prev[l];
        } else if k < |prev| {
          assert (prev + row)[k] == prev[k] && (prev + row)[l] == row[l - |prev|];
        } else {
          assert (prev + row)[k] == row[k - |prev|] && (prev + row)[l] == row[l - |prev|];
        }
      }
    }
  }

  /** The scan visits exactly the pairs i < j < n, each once, in
      lexicographic order. */
  lemma ScanOrderExact(n: nat)
    ensures PairsWithin(ScanOrder(n), n)
    ensures forall a: nat, b: nat :: a < b < n ==> (a, b) in ScanOrder(n)
    ensures forall k, l :: 0 <= k < l < |ScanOrder(n)| ==> LexLess(ScanOrder(n)[k], ScanOrder(n)[l])
  {
    PairsBelowWithin(n, n);
    PairsBelowCovers(n, n);
    PairsBelowSorted(n, n);
  }

  /** The scan visits no pair of fewer than two bodies. */
  lemma ScanOrderSmall(n: nat)
    requires n <= 1
    ensures ScanOrder(n) == []
  {
    if n == 1 {
      assert PairsBelow(1, 1) == PairsBelow(1, 0) + Row(0, 1, 1);
    }
  }

  /** The pairs the scan over `n` bodies has visited when it reaches the
      pair (i, j): the rows before `i`, then (i, k) for i < k < j. */
  function Visited(n: nat, i: nat, j: nat): seq<Pair>
  {
    PairsBelow(n, i) + Row(i, i + 1, j)
  }

  /** The pairs visited before pair (i, j) lie in range. */
  lemma VisitedWithin(n: nat, i: nat, j: nat)
    requires i < n && i + 1 <= j <= n
    ensures PairsWithin(Visited(n, i, j), n)
  {
    PairsBelowWithin(n, i);
    RowFacts(i, i + 1, j);
    var ps := Visited(n, i, j);
    forall k | 0 <= k < |ps|
      ensures ps[k].0 < ps[k].1 < n
    {
      if k >= |PairsBelow(n, i)| {
        assert ps[k] == Row(i, i + 1, j)[k - |PairsBelow(n, i)|];
      }
    }
  }

  /** Visiting (i, j) takes the row on to `next`, the column after `j`. */
  lemma VisitedNext(n: nat, i: nat, j: nat, next: nat)
    requires i < j < n && next == j + 1
    ensures Visited(n, i, next) == Visited(n, i, j) + [(i, j)]
    ensures PairsWithin(Visited(n, i, next), n)
  {
    assert Row(i, i + 1, next) == Row(i, i + 1, j) + [(i, j)];
    VisitedWithin(n, i, next);
  }

  /** Row `i` starts where the rows below it end, and ends where row `next` starts. */
  lemma VisitedEnds(n: nat, i: nat, next: nat)
    requires i < n && next == i + 1
    ensures Visited(n, i, i + 1) == PairsBelow(n, i)
    ensures Visited(n, i, n) == PairsBelow(n, next)
  {
    assert Row(i, i + 1, i + 1) == [];
  }

  // ---------------------------------------------------------------------
  // The scan on body states.

  predicate AllPositive(s: seq<BodyState>) {
    forall k :: 0 <= k < |s| ==> s[k].mass > 0.0
  }

  type Scanned = (seq<BodyState>, seq<Pending<BodyState>>)

  /** The three pair operations the scan calls (`check_collision`,
      `handle_collision` and `update_velocities`), as values. The scan is
      written against any such triple; `Models` says when a triple is the
      one the physics modules define. */
  datatype PairOps = PairOps(
    collides: (BodyState, BodyState) -> bool,
    merge: (BodyState, BodyState) -> BodyState,
    kick: (BodyState, BodyState) -> (BodyState, BodyState))
  {
    /** On every pair of bodies of positive mass the operations are
        `Collides`, `Merge` and `Kick` with the time step `dt`. */
    ghost predicate Models(dt: real, m: MathLib) {
      m.Lawful() && forall a, b :: AgreesAt(a, b, dt, m)
    }

    ghost predicate AgreesAt(a: BodyState, b: BodyState, dt: real, m: MathLib)
      requires m.Lawful()
    {
      a.mass > 0.0 && b.mass > 0.0 ==>
        && collides(a, b) == Collides(a, b, m)
        && merge(a, b) == Merge(a, b)
        && kick(a, b) == Kick(a, b, dt, m)
    }
  }

  /** The pair operations of the physics modules with the time step `dt`. */
  function Ops(dt: real, m: MathLib): (o: PairOps)
    requires m.Lawful()
    ensures o.Models(dt, m)
  {
    PairOps(
      (a: BodyState, b: BodyState) => Collides(a, b, m),
      (a: BodyState, b: BodyState) => if a.mass + b.mass != 0.0 then Merge(a, b) else a,
      (a: BodyState, b: BodyState) => if a.mass != 0.0 && b.mass != 0.0 then Kick(a, b, dt, m) else (a, b))
  }

  /** One step of the scan: a colliding pair queues its merge, computed from
      the current states; any other pair takes its gravity kicks. */
  function VisitPair(o: PairOps, s: seq<BodyState>, q: seq<Pending<BodyState>>, p: Pair, dt: real, m: MathLib): (r: Scanned)
    requires o.Models(dt, m) && AllPositive(s) && p.0 < p.1 < |s|
    ensures |r.0| == |s| && AllPositive(r.0)
  {
    var (i, j) := p;
    assert o.AgreesAt(s[i], s[j], dt, m);
    if o.collides(s[i], s[j]) then
      (s, q + [Pending(i, j, o.merge(s[i], s[j]))])
    else
      var k := o.kick(s[i], s[j]);
      (s[i := k.0][j := k.1], q)
  }

  /** Under operations that model the physics, a colliding pair has its
      `handle_collision` result queued and the states are left alone. */
  lemma VisitQueues(o: PairOps, s: seq<BodyState>, q: seq<Pending<BodyState>>, i: nat, j: nat, dt: real, m: MathLib)
    requires o.Models(dt, m) && AllPositive(s) && i < j < |s|
    requires Collides(s[i], s[j], m)
    ensures VisitPair(o, s, q, (i, j), dt, m) == (s, q + [Pending(i, j, Merge(s[i], s[j]))])
  {
    assert o.AgreesAt(s[i], s[j], dt, m);
  }

  /** Any other pair takes the two `update_velocities` kicks and queues
      nothing. */
  lemma VisitKicks(o: PairOps, s: seq<BodyState>, q: seq<Pending<BodyState>>, i: nat, j: nat, dt: real, m: MathLib)
    requires o.Models(dt, m) && AllPositive(s) && i < j < |s|
    requires !Collides(s[i], s[j], m)
    ensures var k := Kick(s[i], s[j], dt, m);
      VisitPair(o, s, q, (i, j), dt, m) == (s[i := k.0][j := k.1], q)
  {
    assert o.AgreesAt(s[i], s[j], dt, m);
  }

  /** The scan over the pairs `ps`, in order, from the states `s` and the
      queue `q`: the states at the end and the queue extended by the merges. */
  function Scan(o: PairOps, s: seq<BodyState>, q: seq<Pending<BodyState>>, ps: seq<Pair>, dt: real, m: MathLib): (r: Scanned)
    requires o.Models(dt, m) && AllPositive(s) && PairsWithin(ps, |s|)
    ensures |r.0| == |s| && AllPositive(r.0)
    decreases |ps|
  {
    if ps == [] then (s, q)
    else
      var prev := Scan(o, s, q, ps[..|ps| - 1], dt, m);
      VisitPair(o, prev.0, prev.1, ps[|ps| - 1], dt, m)
  }

  /** A visit changes no position, mass or colour. */
  lemma VisitKeepsPlaces(o: PairOps, s: seq<BodyState>, q: seq<Pending<BodyState>>, p: Pair, dt: real, m: MathLib)
    requires o.Models(dt, m) && AllPositive(s) && p.0 < p.1 < |s|
    ensures forall k :: 0 <= k < |s| ==> Unmoved(VisitPair(o, s, q, p, dt, m).0[k], s[k])
  {
    assert o.AgreesAt(s[p.0], s[p.1], dt, m);
  }

  /** Positions, masses and colours never change during the scan: only
      velocities do. */
  lemma {:induction false} ScanKeepsPlaces(o: PairOps, s: seq<BodyState>, q: seq<Pending<BodyState>>, ps: seq<Pair>, dt: real, m: MathLib)
    requires o.Models(dt, m) && AllPositive(s) && PairsWithin(ps, |s|)
    ensures forall k :: 0 <= k < |s| ==> Unmoved(Scan(o, s, q, ps, dt, m).0[k], s[k])
    decreases |ps|
  {
    if ps != [] {
      var init := ps[..|ps| - 1];
      ScanKeepsPlaces(o, s, q, init, dt, m);
      var prev := Scan(o, s, q, init, dt, m);
      VisitKeepsPlaces(o, prev.0, prev.1, ps[|ps| - 1], dt, m);
    }
  }

  /** Scanning one more pair is one more visit. */
  lemma ScanSnoc(o: PairOps, s: seq<BodyState>, q: seq<Pending<BodyState>>, ps: seq<Pair>, p: Pair, dt: real, m: MathLib)
    requires o.Models(dt, m) && AllPositive(s) && PairsWithin(ps + [p], |s|)
    ensures PairsWithin(ps, |s|) && p.0 < p.1 < |s|
    ensures var prev := Scan(o, s, q, ps, dt, m);
      Scan(o, s, q, ps + [p], dt, m) == VisitPair(o, prev.0, prev.1, p, dt, m)
  {
    PairsWithinSplit(ps, [p], |s|);
    assert (ps + [p])[..|ps|] == ps;
    assert (ps + [p])[|ps|] == p;
  }

  /** Scanning `a + b` is scanning `a` and then `b`. */
  lemma {:induction false} ScanConcat(o: PairOps, s: seq<BodyState>, q: seq<Pending<BodyState>>, a: seq<Pair>, b: seq<Pair>, dt: real, m: MathLib)
    requires o.Models(dt, m) && AllPositive(s) && PairsWithin(a + b, |s|)
    ensures PairsWithin(a, |s|) && PairsWithin(b, |s|)
    ensures var mid := Scan(o, s, q, a, dt, m); Scan(o, s, q, a + b, dt, m) == Scan(o, mid.0, mid.1, b, dt, m)
    decreases |b|
  {
    PairsWithinSplit(a, b, |s|);
    if b == [] {
      assert a + b == a;
    } else {
      var init := b[..|b| - 1];
      assert (a + b)[..|a + b| - 1] == a + init;
      assert (a + b)[|a + b| - 1] == b[|b| - 1];
      PairsWithinSplit(a, init, |s|);
      ScanConcat(o, s, q, a, init, dt, m);
    }
  }

  lemma PairsWithinSplit(a: seq<Pair>, b: seq<Pair>, n: nat)
    ensures PairsWithin(a + b, n) <==> PairsWithin(a, n) && PairsWithin(b, n)
  {
    if PairsWithin(a, n) && PairsWithin(b, n) {
      forall k | 0 <= k < |a + b| ensures (a + b)[k].0 < (a + b)[k].1 < n {
        if k < |a| { assert (a + b)[k] == a[k]; } else { assert (a + b)[k] == b[k - |a|]; }
      }
    }
    if PairsWithin(a + b, n) {
      assert forall k :: 0 <= k < |a| ==> a[k] == (a + b)[k];
      assert forall k :: 0 <= k < |b| ==> b[k] == (a + b)[|a| + k];
    }
  }

  /** The pairs of `ps` that collide in the states `s`, in order. */
  function Colliding(s: seq<BodyState>, ps: seq<Pair>, m: MathLib): seq<Pair>
    requires m.Lawful() && PairsWithin(ps, |s|)
    decreases |ps|
  {
    if ps == [] then []
    else
      var p := ps[|ps| - 1];
      Colliding(s, ps[..|ps| - 1], m) + (if Collides(s[p.0], s[p.1], m) then [p] else [])
  }

  function Indices<T>(q: seq<Pending<T>>): (r: seq<Pair>)
    ensures |r| == |q| && forall k :: 0 <= k < |q| ==> r[k] == (q[k].i, q[k].j)
  {
    seq(|q|, k requires 0 <= k < |q| => (q[k].i, q[k].j))
  }

  lemma CollidesIgnoresVelocity(a: BodyState, a': BodyState, b: BodyState, b': BodyState, m: MathLib)
    requires m.Lawful() && Unmoved(a', a) && Unmoved(b', b)
    ensures Collides(a', b', m) == Collides(a, b, m)
  {
  }

  /** A pair that collides queues the merge of the states the scan has
      reached when it visits the pair, not of the start-of-tick states. */
  lemma ScanQueuesCurrentStates(o: PairOps, s: seq<BodyState>, done: seq<Pair>, i: nat, j: nat, dt: real, m: MathLib)
    requires o.Models(dt, m) && AllPositive(s) && PairsWithin(done, |s|) && i < j < |s|
    requires Collides(s[i], s[j], m)
    ensures var prev := Scan(o, s, [], done, dt, m);
      Scan(o, s, [], done + [(i, j)], dt, m) == (prev.0, prev.1 + [Pending(i, j, Merge(prev.0[i], prev.0[j]))])
  {
    PairsWithinSplit(done, [(i, j)], |s|);
    ScanSnoc(o, s, [], done, (i, j), dt, m);
    ScanKeepsPlaces(o, s, [], done, dt, m);
    var prev := Scan(o, s, [], done, dt, m);
    assert Unmoved(prev.0[i], s[i]) && Unmoved(prev.0[j], s[j]);
    CollidesIgnoresVelocity(s[i], prev.0[i], s[j], prev.0[j], m);
    VisitQueues(o, prev.0, prev.1, i, j, dt, m);
  }

  /** A pair that does not collide takes the kicks of the states the scan
      has reached when it visits the pair, and queues nothing. */
  lemma ScanKicksCurrentStates(o: PairOps, s: seq<BodyState>, done: seq<Pair>, i: nat, j: nat, dt: real, m: MathLib)
    requires o.Models(dt, m) && AllPositive(s) && PairsWithin(done, |s|) && i < j < |s|
    requires !Collides(s[i], s[j], m)
    ensures var prev := Scan(o, s, [], done, dt, m);
      var k := Kick(prev.0[i], prev.0[j], dt, m);
      Scan(o, s, [], done + [(i, j)], dt, m) == (prev.0[i := k.0][j := k.1], prev.1)
  {
    PairsWithinSplit(done, [(i, j)], |s|);
    ScanSnoc(o, s, [], done, (i, j), dt, m);
    ScanKeepsPlaces(o, s, [], done, dt, m);
    var prev := Scan(o, s, [], done, dt, m);
    assert Unmoved(prev.0[i], s[i]) && Unmoved(prev.0[j], s[j]);
    CollidesIgnoresVelocity(s[i], prev.0[i], s[j], prev.0[j], m);
    VisitKicks(o, prev.0, prev.1, i, j, dt, m);
  }

  /** Because no position or mass changes during the scan, the merges it
      queues are exactly the pairs that collide at the start of the tick. */
  lemma {:induction false} ScanQueuesStartCollisions(o: PairOps, s: seq<BodyState>, q: seq<Pending<BodyState>>, ps: seq<Pair>, dt: real, m: MathLib)
    requires o.Models(dt, m) && AllPositive(s) && PairsWithin(ps, |s|)
    ensures Indices(Scan(o, s, q, ps, dt, m).1) == Indices(q) + Colliding(s, ps, m)
    decreases |ps|
  {
    if ps != [] {
      var init := ps[..|ps| - 1];
      ScanQueuesStartCollisions(o, s, q, init, dt, m);
      ScanKeepsPlaces(o, s, q, init, dt, m);
      var prev := Scan(o, s, q, init, dt, m);
      var (i, j) := ps[|ps| - 1];
      assert o.AgreesAt(prev.0[i], prev.0[j], dt, m);
      CollidesIgnoresVelocity(s[i], prev.0[i], s[j], prev.0[j], m);
      if Collides(s[i], s[j], m) {
        var e := Pending(i, j, o.merge(prev.0[i], prev.0[j]));
        assert Indices(prev.1 + [e]) == Indices(prev.1) + [(i, j)];
      }
    }
  }

  /** Every merge the scan queues carries the summed start-of-tick mass of
      its pair. */
  lemma {:induction false} ScanMergedMasses(o: PairOps, s: seq<BodyState>, q: seq<Pending<BodyState>>, ps: seq<Pair>, dt: real, m: MathLib)
    requires o.Models(dt, m) && AllPositive(s) && PairsWithin(ps, |s|)
    ensures var r := Scan(o, s, q, ps, dt, m).1;
      && |q| <= |r| && r[..|q|] == q
      && forall k :: |q| <= k < |r| ==>
           r[k].i < r[k].j < |s| && r[k].merged.mass == s[r[k].i].mass + s[r[k].j].mass
    decreases |ps|
  {
    if ps != [] {
      var init := ps[..|ps| - 1];
      ScanMergedMasses(o, s, q, init, dt, m);
      ScanKeepsPlaces(o, s, q, init, dt, m);
      var prev := Scan(o, s, q, init, dt, m);
      var (i, j) := ps[|ps| - 1];
      assert o.AgreesAt(prev.0[i], prev.0[j], dt, m);
      assert Unmoved(prev.0[i], s[i]) && Unmoved(prev.0[j], s[j]);
    }
  }

  // ---------------------------------------------------------------------
  // Totals over a list of bodies.

  datatype Quantity = Mass | MomentumX | MomentumY

  function Measure(q: Quantity, b: BodyState): real {
    match q
    case Mass => b.mass
    case MomentumX => b.mass * b.vx
    case MomentumY => b.mass * b.vy
  }

  /** The total mass or momentum of a list of bodies. */
  function Total(s: seq<BodyState>, q: Quantity): real {
    if s == [] then 0.0 else Measure(q, s[0]) + Total(s[1..], q)
  }

  lemma {:induction false} TotalConcat(a: seq<BodyState>, b: seq<BodyState>, q: Quantity)
    ensures Total(a + b, q) == Total(a, q) + Total(b, q)
  {
    if a == [] {
      assert a + b == b;
    } else {
      assert (a + b)[1..] == a[1..] + b;
      TotalConcat(a[1..], b, q);
    }
  }

  lemma TotalUpdate(s: seq<BodyState>, k: nat, v: BodyState, q: Quantity)
    requires k < |s|
    ensures Total(s[k := v], q) == Total(s, q) - Measure(q, s[k]) + Measure(q, v)
  {
    assert s == s[..k] + [s[k]] + s[k + 1..];
    assert s[k := v] == s[..k] + [v] + s[k + 1..];
    TotalConcat(s[..k] + [s[k]], s[k + 1..], q);
    TotalConcat(s[..k], [s[k]], q);
    TotalConcat(s[..k] + [v], s[k + 1..], q);
    TotalConcat(s[..k], [v], q);
  }

  lemma TotalRemove(s: seq<BodyState>, k: nat, q: Quantity)
    requires k < |s|
    ensures Total(s[..k] + s[k + 1..], q) == Total(s, q) - Measure(q, s[k])
  {
    assert s == s[..k] + [s[k]] + s[k + 1..];
    TotalConcat(s[..k] + [s[k]], s[k + 1..], q);
    TotalConcat(s[..k], [s[k]], q);
    TotalConcat(s[..k], s[k + 1..], q);
  }

  /** A merge that goes through replaces the measures of the entries at `i`
      and `j` by the measure of the merged entry. */
  lemma ApplyMergeTotal(s: seq<BodyState>, e: Pending<BodyState>, q: Quantity)
    requires e.i < e.j < |s|
    ensures ApplyMerge(s, e).Done?
    ensures Total(ApplyMerge(s, e).bodies, q)
         == Total(s, q) - Measure(q, s[e.i]) - Measure(q, s[e.j]) + Measure(q, e.merged)
  {
    var u := s[e.i := e.merged];
    assert ApplyMerge(s, e) == Done(u[..e.j] + u[e.j + 1..]);
    assert u[e.j] == s[e.j];
    TotalUpdate(s, e.i, e.merged, q);
    TotalRemove(u, e.j, q);
  }

  /** Replacing a pair of bodies by a pair with the same summed measure keeps
      the total. */
  lemma TotalUpdatePair(s: seq<BodyState>, i: nat, j: nat, a: BodyState, b: BodyState, q: Quantity)
    requires i < |s| && j < |s| && i != j
    requires Measure(q, a) + Measure(q, b) == Measure(q, s[i]) + Measure(q, s[j])
    ensures Total(s[i := a][j := b], q) == Total(s, q)
  {
    TotalUpdate(s, i, a, q);
    TotalUpdate(s[i := a], j, b, q);
  }

  /** A pair of kicks keeps the pair's summed mass and momentum. */
  lemma KickKeepsMeasure(a: BodyState, b: BodyState, dt: real, m: MathLib, q: Quantity)
    requires m.Lawful() && a.mass != 0.0 && b.mass != 0.0
    ensures var k := Kick(a, b, dt, m);
      Measure(q, k.0) + Measure(q, k.1) == Measure(q, a) + Measure(q, b)
  {
    KickConservesMomentum(a, b, dt, m);
  }

  /** Gravity kicks conserve the total mass and momentum of the whole list. */
  lemma {:induction false} ScanConservesTotals(o: PairOps, s: seq<BodyState>, q0: seq<Pending<BodyState>>, ps: seq<Pair>, dt: real, m: MathLib, q: Quantity)
    requires o.Models(dt, m) && AllPositive(s) && PairsWithin(ps, |s|)
    ensures Total(Scan(o, s, q0, ps, dt, m).0, q) == Total(s, q)
    decreases |ps|
  {
    if ps != [] {
      ScanConservesTotals(o, s, q0, ps[..|ps| - 1], dt, m, q);
      var prev := Scan(o, s, q0, ps[..|ps| - 1], dt, m).0;
      var (i, j) := ps[|ps| - 1];
      assert o.AgreesAt(prev[i], prev[j], dt, m);
      if !o.collides(prev[i], prev[j]) {
        KickKeepsMeasure(prev[i], prev[j], dt, m, q);
        var k := Kick(prev[i], prev[j], dt, m);
        TotalUpdatePair(prev, i, j, k.0, k.1, q);
      }
    }
  }
}
