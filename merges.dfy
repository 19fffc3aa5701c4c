/** The second loop of a tick (sim.py): the merges queued by the pair scan,
    applied to the body list one after the other with the indices recorded
    at scan time. Generic in the type of the list's entries. */
module MergeQueue {

  /** A queued merge: overwrite index `i` by `merged`, then pop index `j`. */
  datatype Pending<T> = Pending(i: nat, j: nat, merged: T)

  /** The list after a step, or the IndexError that Python raises, carrying
      the list as it was at the raise. */
  datatype Outcome<T> = Done(bodies: seq<T>) | IndexError(bodies: seq<T>)

  /** `bodies[i] = merged` followed by `bodies.pop(j)`: the assignment raises
      when `i` is past the end, the pop when `j` is past the end of the list
      the assignment left. */
  function ApplyMerge<T>(s: seq<T>, e: Pending<T>): (r: Outcome<T>)
    ensures r.Done? <==> e.i < |s| && e.j < |s|
    ensures r.Done? ==> |r.bodies| == |s| - 1
    ensures r.IndexError? && e.i >= |s| ==> r.bodies == s
    ensures r.IndexError? && e.i < |s| ==> r.bodies == s[e.i := e.merged]
  {
    if e.i >= |s| then IndexError(s)
    else
      var t := s[e.i := e.merged];
      if e.j >= |t| then IndexError(t) else Done(t[..e.j] + t[e.j + 1..])
  }

  /** With `i < j` in range, a merge writes the merged entry at `i`, keeps every
      other entry before `j` and shifts every entry after `j` down by one. */
  lemma ApplyMergeShifts<T>(s: seq<T>, e: Pending<T>)
    requires e.i < e.j < |s|
    ensures var r := ApplyMerge(s, e).bodies;
      && r[e.i] == e.merged
      && (forall k :: 0 <= k < e.j && k != e.i ==> r[k] == s[k])
      && (forall k :: e.j <= k < |s| - 1 ==> r[k] == s[k + 1])
  {
  }

  /** The queued merges applied in queue order, stopping at the first raise. */
  function ApplyMerges<T>(s: seq<T>, q: seq<Pending<T>>): Outcome<T>
    decreases |q|
  {
    if q == [] then Done(s)
    else
      match ApplyMerges(s, q[..|q| - 1])
      case IndexError(t) => IndexError(t)
      case Done(t) => ApplyMerge(t, q[|q| - 1])
  }

  /** Applying one more queued merge. */
  lemma ApplyMergesSnoc<T>(s: seq<T>, q: seq<Pending<T>>, e: Pending<T>)
    ensures ApplyMerges(s, q + [e]) ==
      match ApplyMerges(s, q)
      case IndexError(t) => IndexError(t)
      case Done(t) => ApplyMerge(t, e)
  {
    assert (q + [e])[..|q|] == q;
  }

  /** Every merge that goes through shortens the list by one. */
  lemma {:induction false} ApplyMergesLength<T>(s: seq<T>, q: seq<Pending<T>>)
    requires ApplyMerges(s, q).Done?
    ensures |ApplyMerges(s, q).bodies| + |q| == |s|
    decreases |q|
  {
    if q != [] {
      ApplyMergesLength(s, q[..|q| - 1]);
    }
  }

  /** Once a merge raises, the rest of the queue is never applied. */
  lemma {:induction false} ApplyMergesStopsAtRaise<T>(s: seq<T>, q: seq<Pending<T>>, k: nat)
    requires k <= |q| && ApplyMerges(s, q[..k]).IndexError?
    ensures ApplyMerges(s, q) == ApplyMerges(s, q[..k])
    decreases |q| - k
  {
    if k < |q| {
      assert q[..k + 1][..k] == q[..k];
      ApplyMergesStopsAtRaise(s, q, k + 1);
      assert q[..|q|] == q;
    } else {
      assert q[..k] == q;
    }
  }

  /** After a prefix of the queue that went through, the next merge decides
      the longer prefix, and if it raises the whole queue ends there. */
  lemma ApplyMergesPrefix<T>(s: seq<T>, q: seq<Pending<T>>, k: nat)
    requires k < |q| && ApplyMerges(s, q[..k]).Done?
    ensures ApplyMerges(s, q[..k + 1]) == ApplyMerge(ApplyMerges(s, q[..k]).bodies, q[k])
    ensures ApplyMerges(s, q[..k + 1]).IndexError? ==> ApplyMerges(s, q) == ApplyMerges(s, q[..k + 1])
  {
    ApplyMergesSnoc(s, q[..k], q[k]);
    assert q[..k] + [q[k]] == q[..k + 1];
    if ApplyMerges(s, q[..k + 1]).IndexError? {
      ApplyMergesStopsAtRaise(s, q, k + 1);
    }
  }

  /** Three mutually overlapping entries queue (0,1), (0,2), (1,2): after the
      first merge the list has two entries and popping index 2 raises, with
      the second merged body already written over index 0. */
  lemma ThreeWayMergeRaises<T>(a: T, b: T, c: T, m01: T, m02: T, m12: T)
    ensures ApplyMerges([a, b, c], [Pending(0, 1, m01), Pending(0, 2, m02), Pending(1, 2, m12)])
         == IndexError([m02, c])
  {
    var s := [a, b, c];
    var e1, e2, e3 := Pending(0, 1, m01), Pending(0, 2, m02), Pending(1, 2, m12);
    ApplyMergesSnoc(s, [], e1);
    assert [] + [e1] == [e1];
    var t1 := s[0 := m01];
    assert t1[..1] + t1[2..] == [m01, c];
    assert ApplyMerges(s, [e1]) == Done([m01, c]);
    ApplyMergesSnoc(s, [e1], e2);
    assert [e1] + [e2] == [e1, e2];
    assert ApplyMerges(s, [e1, e2]) == IndexError([m02, c]);
    ApplyMergesSnoc(s, [e1, e2], e3);
    assert [e1, e2] + [e3] == [e1, e2, e3];
  }

  /** Two disjoint overlapping pairs (0,1), (2,3) of four entries raise too:
      after the first pop, index 3 is past the end. */
  lemma DisjointMergesRaise<T>(a: T, b: T, c: T, d: T, m01: T, m23: T)
    ensures ApplyMerges([a, b, c, d], [Pending(0, 1, m01), Pending(2, 3, m23)])
         == IndexError([m01, c, m23])
  {
    var s := [a, b, c, d];
    var e1, e2 := Pending(0, 1, m01), Pending(2, 3, m23);
    ApplyMergesSnoc(s, [], e1);
    assert [] + [e1] == [e1];
    var t1 := s[0 := m01];
    assert t1[..1] + t1[2..] == [m01, c, d];
    assert ApplyMerges(s, [e1]) == Done([m01, c, d]);
    ApplyMergesSnoc(s, [e1], e2);
    assert [e1] + [e2] == [e1, e2];
  }

  /** A chain (0,1), (1,2) of four entries does not raise, but the stale
      index drops the bystander `d` and keeps `b` in both merged entries. */
  lemma ChainMergeDropsBystander<T>(a: T, b: T, c: T, d: T, m01: T, m12: T)
    ensures ApplyMerges([a, b, c, d], [Pending(0, 1, m01), Pending(1, 2, m12)])
         == Done([m01, m12])
  {
    var s := [a, b, c, d];
    var e1, e2 := Pending(0, 1, m01), Pending(1, 2, m12);
    ApplyMergesSnoc(s, [], e1);
    assert [] + [e1] == [e1];
    var t1 := s[0 := m01];
    assert t1[..1] + t1[2..] == [m01, c, d];
    assert ApplyMerges(s, [e1]) == Done([m01, c, d]);
    ApplyMergesSnoc(s, [e1], e2);
    assert [e1] + [e2] == [e1, e2];
    var t2 := [m01, c, d][1 := m12];
    assert t2[..2] + t2[3..] == [m01, m12];
  }
}
