/** Which variable of the array stands for its parent sensor in sensor-level operations. */
module Dedup {
  import opened Handles

  /** Index i is canonical when no later variable has a parent with the same name and location:
      the last variable of each physical sensor is the one used to reach it. */
  predicate IsCanonical(vs: seq<Variable>, i: nat)
    requires i < |vs|
  {
    forall j :: i < j < |vs| ==> !SameSensor(vs[i].parent, vs[j].parent)
  }

  /** The canonical indices below k, in increasing order. */
  function CanonicalBelow(vs: seq<Variable>, k: nat): (ids: seq<nat>)
    requires k <= |vs|
    ensures |ids| <= k
    ensures forall a :: 0 <= a < |ids| ==> ids[a] < k
    ensures forall i: nat :: i in ids <==> i < k && IsCanonical(vs, i)
    ensures forall a, b :: 0 <= a < b < |ids| ==> ids[a] < ids[b]
  {
    if k == 0 then []
    else CanonicalBelow(vs, k - 1) + (if IsCanonical(vs, k - 1) then [k - 1] else [])
  }

  /** All canonical indices of the array, in increasing order. */
  function Canonical(vs: seq<Variable>): seq<nat> {
    CanonicalBelow(vs, |vs|)
  }

  /** `calls` holds exactly one call of `op` per index of `ids`, in the order of `ids`. */
  predicate OncePerIndex(calls: seq<Call>, op: Op, ids: seq<nat>) {
    |calls| == |ids| && forall c :: 0 <= c < |calls| ==> calls[c] == Call(op, ids[c])
  }

  /** Visiting index i extends a once-per-canonical-index run up to i by a call at i exactly when i is
      canonical. */
  lemma OncePerIndexStep(calls: seq<Call>, op: Op, vs: seq<Variable>, i: nat)
    requires i < |vs| && OncePerIndex(calls, op, CanonicalBelow(vs, i))
    ensures IsCanonical(vs, i) ==> OncePerIndex(calls + [Call(op, i)], op, CanonicalBelow(vs, i + 1))
    ensures !IsCanonical(vs, i) ==> OncePerIndex(calls, op, CanonicalBelow(vs, i + 1))
  {
    if IsCanonical(vs, i) {
      assert CanonicalBelow(vs, i + 1) == CanonicalBelow(vs, i) + [i];
    } else {
      assert CanonicalBelow(vs, i + 1) == CanonicalBelow(vs, i);
    }
  }

  /** The (name, location) pairs of the parents of the variables at positions lo..hi-1. */
  ghost function SensorsIn(vs: seq<Variable>, lo: nat, hi: nat): set<(string, string)>
    requires lo <= hi <= |vs|
  {
    set i | lo <= i < hi :: Identity(vs[i].parent)
  }

  /** The distinct physical sensors the array refers to. */
  ghost function DistinctSensors(vs: seq<Variable>): set<(string, string)> {
    SensorsIn(vs, 0, |vs|)
  }

  /** The last variable is always canonical, so a non-empty array has a canonical index
      and the last one is the last variable. */
  lemma LastIsCanonical(vs: seq<Variable>)
    requires |vs| > 0
    ensures |Canonical(vs)| > 0 && Canonical(vs)[|Canonical(vs)| - 1] == |vs| - 1
  {
  }

  /** A run of one call per canonical index of a non-empty array ends with the call at the last variable. */
  lemma LastCallAtLastVariable(calls: seq<Call>, op: Op, vs: seq<Variable>)
    requires |vs| > 0 && OncePerIndex(calls, op, Canonical(vs))
    ensures |calls| > 0 && calls[|calls| - 1] == Call(op, |vs| - 1)
  {
    LastIsCanonical(vs);
  }

  /** Extending the range lo..hi-1 by one position on the right adds that position's sensor. */
  lemma SensorsInExtend(vs: seq<Variable>, lo: nat, hi: nat)
    requires lo <= hi < |vs|
    ensures SensorsIn(vs, lo, hi + 1) == SensorsIn(vs, lo, hi) + {Identity(vs[hi].parent)}
  {
  }

  /** Dropping position lo from the range lo..hi-1 leaves its sensor only if it occurs again later. */
  lemma SensorsInShrink(vs: seq<Variable>, lo: nat, hi: nat)
    requires lo < hi <= |vs|
    ensures SensorsIn(vs, lo, hi) == {Identity(vs[lo].parent)} + SensorsIn(vs, lo + 1, hi)
  {
  }

  /** The sensor of a canonical index does not occur after it; that of a non-canonical one does. */
  lemma CanonicalNotLater(vs: seq<Variable>, i: nat)
    requires i < |vs|
    ensures IsCanonical(vs, i) <==> Identity(vs[i].parent) !in SensorsIn(vs, i + 1, |vs|)
  {
    var x := Identity(vs[i].parent);
    if x in SensorsIn(vs, i + 1, |vs|) {
      var j :| i + 1 <= j < |vs| && Identity(vs[j].parent) == x;
      assert SameSensor(vs[i].parent, vs[j].parent);
    }
  }

  /** Moving one element x from the "seen again later" side to the "seen so far" side of a difference
      grows it by one exactly when x is not seen again later. */
  lemma MoveAcross<T>(seen: set<T>, rest: set<T>, x: T)
    ensures x !in rest ==> |(seen + {x}) - rest| == |seen - ({x} + rest)| + 1
    ensures x in rest ==> |(seen + {x}) - rest| == |seen - ({x} + rest)|
  {
    if x !in rest {
      assert (seen + {x}) - rest == (seen - ({x} + rest)) + {x};
    } else {
      assert (seen + {x}) - rest == seen - ({x} + rest);
    }
  }

  /** Moving the boundary j -> j + 1 adds one to the count of sensors seen before the boundary and not after
      it exactly when the variable at j is canonical. */
  lemma SensorsBeforeOnlyStep(vs: seq<Variable>, j: nat, k: nat)
    requires k == j + 1 <= |vs|
    ensures |SensorsIn(vs, 0, k) - SensorsIn(vs, k, |vs|)|
         == |SensorsIn(vs, 0, j) - SensorsIn(vs, j, |vs|)| + (if IsCanonical(vs, j) then 1 else 0)
  {
    var x := Identity(vs[j].parent);
    var seen, rest := SensorsIn(vs, 0, j), SensorsIn(vs, k, |vs|);
    SensorsInExtend(vs, 0, j);
    SensorsInShrink(vs, j, |vs|);
    CanonicalNotLater(vs, j);
    MoveAcross(seen, rest, x);
  }

  /** Moving the boundary j -> j + 1 adds one canonical index exactly when the variable at j is canonical. */
  lemma CanonicalBelowStep(vs: seq<Variable>, j: nat, k: nat)
    requires k == j + 1 <= |vs|
    ensures |CanonicalBelow(vs, k)| == |CanonicalBelow(vs, j)| + (if IsCanonical(vs, j) then 1 else 0)
  {
  }

  /** Both counts grow by the same amount when index j is taken into account. */
  lemma CountStep(vs: seq<Variable>, j: nat, k: nat)
    requires k == j + 1 <= |vs|
    ensures |CanonicalBelow(vs, k)| - |CanonicalBelow(vs, j)|
         == |SensorsIn(vs, 0, k) - SensorsIn(vs, k, |vs|)| - |SensorsIn(vs, 0, j) - SensorsIn(vs, j, |vs|)|
  {
    SensorsBeforeOnlyStep(vs, j, k);
    CanonicalBelowStep(vs, j, k);
  }

  /** Below index 0 there is neither a canonical index nor a sensor seen. */
  lemma CountAtStart(vs: seq<Variable>)
    ensures |CanonicalBelow(vs, 0)| == |SensorsIn(vs, 0, 0) - SensorsIn(vs, 0, |vs|)| == 0
  {
    assert SensorsIn(vs, 0, 0) - SensorsIn(vs, 0, |vs|) == {};
  }

  /** Counting canonical indices below k counts the sensors seen below k that do not occur again from k on. */
  lemma {:induction false} CanonicalCountBelow(vs: seq<Variable>, k: nat)
    requires k <= |vs|
    ensures |CanonicalBelow(vs, k)| == |SensorsIn(vs, 0, k) - SensorsIn(vs, k, |vs|)|
  {
    if k == 0 {
      CountAtStart(vs);
    } else {
      var j: nat := k - 1;
      CanonicalCountBelow(vs, j);
      CountStep(vs, j, k);
    }
  }

  /** There are exactly as many canonical indices as distinct (name, location) pairs. */
  lemma CanonicalCountIsDistinctSensors(vs: seq<Variable>)
    ensures |Canonical(vs)| == |DistinctSensors(vs)|
  {
    CanonicalCountBelow(vs, |vs|);
    assert SensorsIn(vs, |vs|, |vs|) == {};
  }

  /** Every variable's sensor is reached through a canonical index at or after it: its last occurrence. */
  lemma {:induction false} LastOccurrenceIsCanonical(vs: seq<Variable>, i: nat)
    requires i < |vs|
    ensures exists j :: i <= j < |vs| && IsCanonical(vs, j) && SameSensor(vs[i].parent, vs[j].parent)
    decreases |vs| - i
  {
    if !IsCanonical(vs, i) {
      var j :| i < j < |vs| && SameSensor(vs[i].parent, vs[j].parent);
      LastOccurrenceIsCanonical(vs, j);
    }
  }

  /** Each distinct (name, location) pair has exactly one canonical index. */
  lemma OneCanonicalPerSensor(vs: seq<Variable>, x: (string, string))
    requires x in DistinctSensors(vs)
    ensures exists i :: 0 <= i < |vs| && IsCanonical(vs, i) && Identity(vs[i].parent) == x
    ensures forall i, j ::
              (0 <= i < |vs| && 0 <= j < |vs| && IsCanonical(vs, i) && IsCanonical(vs, j) &&
               Identity(vs[i].parent) == x && Identity(vs[j].parent) == x) ==> i == j
  {
    var i0 :| 0 <= i0 < |vs| && Identity(vs[i0].parent) == x;
    LastOccurrenceIsCanonical(vs, i0);
    var j :| i0 <= j < |vs| && IsCanonical(vs, j) && SameSensor(vs[i0].parent, vs[j].parent);
    assert Identity(vs[j].parent) == x;
  }

  /** Calls made once per canonical index reach each physical sensor exactly once: there are as many
      calls as distinct (name, location) pairs, and each pair is the parent of exactly one call's variable. */
  lemma OncePerPhysicalSensor(vs: seq<Variable>, calls: seq<Call>, op: Op)
    requires OncePerIndex(calls, op, Canonical(vs))
    ensures |calls| == |DistinctSensors(vs)|
    ensures forall c :: 0 <= c < |calls| ==> calls[c].index < |vs| && IsCanonical(vs, calls[c].index)
    ensures forall x :: x in DistinctSensors(vs) ==>
              exists c :: 0 <= c < |calls| && Identity(vs[calls[c].index].parent) == x
    ensures forall c1, c2 ::
              (0 <= c1 < |calls| && 0 <= c2 < |calls| &&
               Identity(vs[calls[c1].index].parent) == Identity(vs[calls[c2].index].parent)) ==> c1 == c2
  {
    var ids := Canonical(vs);
    CanonicalCountIsDistinctSensors(vs);
    assert forall c :: 0 <= c < |calls| ==> ids[c] in ids;
    forall x | x in DistinctSensors(vs)
      ensures exists c :: 0 <= c < |calls| && Identity(vs[calls[c].index].parent) == x
    {
      OneCanonicalPerSensor(vs, x);
      var i :| 0 <= i < |vs| && IsCanonical(vs, i) && Identity(vs[i].parent) == x;
      assert i in ids;
      var c :| 0 <= c < |ids| && ids[c] == i;
      assert calls[c].index == i;
    }
    forall c1, c2 | 0 <= c1 < |calls| && 0 <= c2 < |calls| &&
                    Identity(vs[calls[c1].index].parent) == Identity(vs[calls[c2].index].parent)
      ensures c1 == c2
    {
      var i, j := ids[c1], ids[c2];
      assert i in ids && j in ids;
      OneCanonicalPerSensor(vs, Identity(vs[i].parent));
    }
  }
}
