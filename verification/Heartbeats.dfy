/** The contracts of the deployment monitor (scenarios/deploy_monitor/workflow/monitoring/contracts.py)
    and its test that heartbeats leave no gap (service.py:136-145). Times are real numbers. */
module Heartbeats {

  datatype Level = Heartbeat | ErrorLevel

  datatype Event = Event(sequence: nat, at: real, replica: string, version: string, level: Level)

  const GAP := 2.5

  // ----- sorting

  predicate Sorted(s: seq<real>) {
    forall i, j :: 0 <= i < j < |s| ==> s[i] <= s[j]
  }

  function Insert(x: real, s: seq<real>): (r: seq<real>)
    requires Sorted(s)
    ensures Sorted(r) && |r| == |s| + 1 && forall y :: y in r <==> y == x || y in s
  {
    if s == [] then [x]
    else if x <= s[0] then
      assert forall j :: 0 < j <= |s| ==> ([x] + s)[j] == s[j - 1];
      [x] + s
    else
      var tail := Insert(x, s[1..]);
      assert forall y :: y in s <==> y == s[0] || y in s[1..];
      assert forall j :: 0 <= j < |tail| ==> tail[j] in tail;
      assert forall j :: 0 < j <= |tail| ==> ([s[0]] + tail)[j] == tail[j - 1];
      [s[0]] + tail
  }

  function Sort(s: seq<real>): (r: seq<real>)
    ensures Sorted(r) && |r| == |s| && forall y :: y in r <==> y in s
  {
    if s == [] then []
    else
      assert forall y :: y in s <==> y == s[0] || y in s[1..];
      Insert(s[0], Sort(s[1..]))
  }

  // ----- the test

  predicate Beat(e: Event, replica: string) {
    e.replica == replica && e.level == Heartbeat
  }

  function Times(events: seq<Event>, replica: string): (t: seq<real>)
    ensures forall x :: x in t <==> exists e :: e in events && Beat(e, replica) && e.at == x
  {
    if events == [] then []
    else
      var rest := Times(events[1..], replica);
      assert forall e :: e in events <==> e == events[0] || e in events[1..];
      if Beat(events[0], replica) then [events[0].at] + rest else rest
  }

  predicate NoGap(boundaries: seq<real>) {
    forall i :: 0 < i < |boundaries| ==> Near(boundaries[i - 1], boundaries[i])
  }

  predicate Near(left: real, right: real) {
    right - left <= GAP
  }

  function Boundaries(events: seq<Event>, replica: string, start: real, end: real): (b: seq<real>)
    ensures |b| >= 2 && b[0] == start && b[|b| - 1] == end
  {
    [start] + Sort(Times(events, replica)) + [end]
  }

  predicate ReplicaBeats(events: seq<Event>, replica: string, start: real, end: real) {
    Times(events, replica) != [] && NoGap(Boundaries(events, replica, start, end))
  }

  predicate AllBeat(replicas: seq<string>, events: seq<Event>, start: real, end: real) {
    forall r :: r in replicas ==> ReplicaBeats(events, r, start, end)
  }

  // ----- what it means

  /** Some heartbeat of the replica lies between `a` and `b`. */
  ghost predicate BeatsWithin(events: seq<Event>, replica: string, a: real, b: real) {
    exists e :: e in events && Beat(e, replica) && a <= e.at <= b
  }

  ghost predicate Covered(events: seq<Event>, replica: string, start: real, end: real) {
    forall a, b :: start <= a && b <= end && b - a > GAP ==> BeatsWithin(events, replica, a, b)
  }

  ghost predicate InWindow(events: seq<Event>, start: real, end: real) {
    forall e :: e in events ==> start <= e.at <= end
  }

  /** A sorted sequence from at most `a` to at least `b` without gaps has an inner member between
      them, if they are far enough apart. */
  lemma {:induction false} SomeBetween(s: seq<real>, a: real, b: real) returns (i: nat)
    requires |s| >= 2 && Sorted(s) && NoGap(s) && s[0] <= a && b <= s[|s| - 1] && b - a > GAP
    ensures 0 < i < |s| - 1 && a <= s[i] <= b
    decreases |s|
  {
    assert Near(s[0], s[1]);
    if a <= s[1] {
      i := 1;
    } else {
      forall k | 0 < k < |s[1..]| ensures Near(s[1..][k - 1], s[1..][k]) { assert Near(s[k], s[k + 1]); }
      var k := SomeBetween(s[1..], a, b);
      i := k + 1;
    }
  }

  lemma BoundariesAreSorted(ticks: seq<real>, start: real, end: real)
    requires Sorted(ticks) && start <= end && forall x :: x in ticks ==> start <= x <= end
    ensures Sorted([start] + ticks + [end])
  {
    var s := [start] + ticks + [end];
    forall i, j | 0 <= i < j < |s| ensures s[i] <= s[j] {
      if 0 < i { assert s[i] == ticks[i - 1] && ticks[i - 1] in ticks; }
      if j < |s| - 1 { assert s[j] == ticks[j - 1] && ticks[j - 1] in ticks; }
    }
  }

  lemma NoGapMeansCovered(events: seq<Event>, replica: string, start: real, end: real)
    requires InWindow(events, start, end) && start <= end && ReplicaBeats(events, replica, start, end)
    ensures Covered(events, replica, start, end)
  {
    var ticks := Sort(Times(events, replica));
    var s := Boundaries(events, replica, start, end);
    BoundariesAreSorted(ticks, start, end);
    forall a, b | start <= a && b <= end && b - a > GAP ensures BeatsWithin(events, replica, a, b) {
      var i := SomeBetween(s, a, b);
      assert s[i] == ticks[i - 1] && ticks[i - 1] in ticks;
      assert s[i] in Times(events, replica);
    }
  }

  lemma GapMeansUncovered(events: seq<Event>, replica: string, start: real, end: real, i: nat)
    requires InWindow(events, start, end) && start <= end
    requires i < |Boundaries(events, replica, start, end)| - 1
    requires !Near(Boundaries(events, replica, start, end)[i], Boundaries(events, replica, start, end)[i + 1])
    ensures !Covered(events, replica, start, end)
  {
    var ticks := Sort(Times(events, replica));
    var s := Boundaries(events, replica, start, end);
    BoundariesAreSorted(ticks, start, end);
    var a, b := s[i] + (s[i + 1] - s[i] - GAP) / 4.0, s[i + 1] - (s[i + 1] - s[i] - GAP) / 4.0;
    assert start <= a && b <= end && b - a > GAP;
    forall e | e in events && Beat(e, replica) ensures !(a <= e.at <= b) {
      assert e.at in Times(events, replica) && e.at in ticks;
      var k :| 0 <= k < |ticks| && ticks[k] == e.at;
      assert s[k + 1] == e.at;
      assert k + 1 <= i || i + 1 <= k + 1;
    }
    assert !BeatsWithin(events, replica, a, b);
  }

  /** The test is exact: it passes just when the replica has a heartbeat in the window and in
      every part of the window longer than the gap. */
  lemma BeatsExactlyWhenCovered(events: seq<Event>, replica: string, start: real, end: real)
    requires InWindow(events, start, end) && start <= end
    ensures ReplicaBeats(events, replica, start, end) <==>
      BeatsWithin(events, replica, start, end) && Covered(events, replica, start, end)
  {
    var ticks := Sort(Times(events, replica));
    if ticks != [] {
      assert ticks[0] in ticks && ticks[0] in Times(events, replica);
      assert BeatsWithin(events, replica, start, end);
    }
    if ReplicaBeats(events, replica, start, end) {
      NoGapMeansCovered(events, replica, start, end);
    } else if BeatsWithin(events, replica, start, end) {
      var e :| e in events && Beat(e, replica) && start <= e.at <= end;
      assert e.at in Times(events, replica) && e.at in ticks;
      var s := Boundaries(events, replica, start, end);
      var i :| 0 < i < |s| && !Near(s[i - 1], s[i]);
      GapMeansUncovered(events, replica, start, end, i - 1);
    }
  }
}
