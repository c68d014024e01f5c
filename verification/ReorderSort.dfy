/** When exactly the reordering window restores the order of sending: the wrapping
    window as a refinement of one over unbounded positions. */
module ReorderSort {
  import opened Common
  import opened Rtp
  import opened Reorder

  /** Packets numbered consecutively, round the number space as often as it takes. */
  predicate Consecutive(sent: seq<Packet>) {
    && 0 < |sent|
    && forall i :: 0 <= i < |sent| ==> sent[i].sequence == SequenceAt(sent[0].sequence, i)
  }

  predicate IsOrder(order: seq<nat>, n: nat) {
    && |order| == n
    && (forall k :: 0 <= k < n ==> order[k] < n)
    && forall j, k :: 0 <= j < k < n ==> order[j] != order[k]
  }

  function Arrivals(sent: seq<Packet>, order: seq<nat>, k: nat): seq<Packet>
    requires IsOrder(order, |sent|) && k <= |sent|
  {
    seq(k, i requires 0 <= i < k => sent[order[i]])
  }

  /** The smallest index of `from..n` not in `got`. */
  function FirstMissing(got: seq<nat>, from: nat, n: nat): (m: nat)
    requires from <= n
    ensures from <= m <= n && (m < n ==> m !in got) && forall i :: from <= i < m ==> i in got
    decreases n - from
  {
    if from < n && from in got then FirstMissing(got, from + 1, n) else from
  }

  function MissingAfter(order: seq<nat>, k: nat): nat
    requires k <= |order|
  {
    FirstMissing(order[..k], 0, |order|)
  }

  /** Datagrams that overtook the smallest missing one. */
  function Overtaking(order: seq<nat>, k: nat): set<nat>
    requires k <= |order|
  {
    set i | i in order[..k] && i > MissingAfter(order, k)
  }

  /** Arrival `k` is as the window needs it: the lowest comes first; none is half
      the number space ahead of the smallest missing one; and at most `window`
      overtake that one. */
  predicate ArrivalOk(order: seq<nat>, k: nat, window: nat)
    requires k < |order|
  {
    && (k == 0 ==> order[0] == 0)
    && order[k] < MissingAfter(order, k) + HALF16
    && |Overtaking(order, k + 1)| <= window
  }

  /** No arrival is a whole trip round the number space ahead of the smallest missing
      one: always so for up to 65536 datagrams. */
  predicate WithinTrip(order: seq<nat>) {
    forall k :: 0 <= k < |order| ==> order[k] < MissingAfter(order, k) + 0x1_0000
  }

  // ---- the window over positions ----------------------------------------

  predicate Rising(idx: seq<nat>) { forall i, j :: 0 <= i < j < |idx| ==> idx[i] < idx[j] }

  /** Ascending positions below `n`, at or past `m` and less than half ahead. */
  predicate Ahead(idx: seq<nat>, m: nat, n: nat) {
    (forall i :: 0 <= i < |idx| ==> m <= idx[i] < n && idx[i] < m + HALF16) && Rising(idx)
  }

  predicate At(held: seq<Packet>, sent: seq<Packet>, idx: seq<nat>) {
    |held| == |idx| && forall i :: 0 <= i < |idx| ==> idx[i] < |sent| && held[i] == sent[idx[i]]
  }

  /** `held` is the packets at positions `idx`, and `next` the number of position `m`. */
  predicate Stands(s: State, sent: seq<Packet>, m: nat, idx: seq<nat>) {
    && m <= |sent| && sent != []
    && s.next == Some(SequenceAt(sent[0].sequence, m))
    && At(s.held, sent, idx) && Ahead(idx, m, |sent|)
  }

  /** Positions at most one trip ahead of `m`: the wrapping distance is the
      distance, or tells that it is not under half. */
  lemma PositionDistance(first: u16, m: nat, i: nat)
    requires m <= i < m + 0x1_0000
    ensures Sub16(SequenceAt(first, i), SequenceAt(first, m)) == i - m
    ensures Next16(SequenceAt(first, m)) == SequenceAt(first, m + 1)
  {
    SequenceNext(first, m);
    DistanceMod(first + m, i - m);
  }

  lemma DistanceMod(a: nat, d: nat)
    requires d < 0x1_0000
    ensures ((a + d) % 0x1_0000 - a % 0x1_0000) % 0x1_0000 == d
  {
  }

  function RunLength(idx: seq<nat>, m: nat): (r: nat)
    ensures r <= |idx| && forall i :: 0 <= i < r ==> idx[i] == m + i
  {
    if idx != [] && idx[0] == m then 1 + RunLength(idx[1..], m + 1) else 0
  }

  /** Releasing the packet at position `m` moves on to `m + 1`. */
  lemma ReleaseStands(s: State, sent: seq<Packet>, m: nat, idx: seq<nat>)
    requires Consecutive(sent) && Stands(s, sent, m, idx) && idx != [] && idx[0] == m
    ensures Stands(Release(s), sent, m + 1, idx[1..]) && !Waits(s) && s.held[0] == sent[m]
    ensures Release(s).lost == s.lost && Release(s).window == s.window
  {
    PositionDistance(sent[0].sequence, m, m);
    assert idx[1..] == idx[1..|idx|];
  }

  /** Over positions, a drain delivers the run that starts at `m`; if more than
      `window` packets are then left behind a gap, it starts counting losses. */
  predicate DrainsRun(s: State, sent: seq<Packet>, m: nat, idx: seq<nat>) {
    var r := RunLength(idx, m);
    if |idx| - r <= s.window then
      && m + r <= |sent|
      && Stands(Drain(s).0, sent, m + r, idx[r..])
      && Drain(s).0.lost == s.lost && Drain(s).1 == sent[m..m + r]
    else Drain(s).0.lost > s.lost
  }

  lemma DrainsRunOn(s: State, sent: seq<Packet>, m: nat, idx: seq<nat>)
    requires idx != [] && idx[0] == m < |sent| && s.held != [] && s.held[0] == sent[m] && !Waits(s)
    requires Release(s).lost == s.lost && Release(s).window == s.window
    requires DrainsRun(Release(s), sent, m + 1, idx[1..])
    ensures DrainsRun(s, sent, m, idx)
  {
    hide Drain, Stands, Waits, Release;
    DrainUnfolds(s);
    var r := RunLength(idx[1..], m + 1);
    assert idx[1..][r..] == idx[r + 1..];
    if |idx| - r - 1 <= s.window { assert [sent[m]] + sent[m + 1..m + 1 + r] == sent[m..m + 1 + r]; }
  }

  lemma {:induction false} DrainStands(s: State, sent: seq<Packet>, m: nat, idx: seq<nat>)
    requires Consecutive(sent) && Stands(s, sent, m, idx)
    ensures DrainsRun(s, sent, m, idx)
    decreases |idx|
  {
    if idx == [] {
    } else if idx[0] == m {
      ReleaseStands(s, sent, m, idx);
      DrainStands(Release(s), sent, m + 1, idx[1..]);
      DrainsRunOn(s, sent, m, idx);
    } else {
      GapStops(s, sent, m, idx);
      assert idx[0..] == idx;
    }
  }

  /** A packet past `m` does not carry the number of `m`. */
  lemma NotNext(sent: seq<Packet>, m: nat, i: nat)
    requires Consecutive(sent) && m < i < |sent| && i < m + HALF16
    ensures sent[i].sequence != SequenceAt(sent[0].sequence, m)
  {
    PositionDistance(sent[0].sequence, m, i);
  }

  lemma ReleaseLoses(s: State)
    requires s.held != [] && s.next.Some? && s.held[0].sequence != s.next.value && |s.held| > s.window
    ensures Drain(s).0.lost > s.lost
  {
    DrainUnfolds(s);
    LostOnlyGrows(Release(s));
  }

  /** With the packet at `m` missing, the window waits while it has room and
      otherwise counts a loss. */
  lemma GapStops(s: State, sent: seq<Packet>, m: nat, idx: seq<nat>)
    requires Consecutive(sent) && Stands(s, sent, m, idx) && idx != [] && idx[0] != m
    ensures if |idx| <= s.window then Drain(s) == (s, []) else Drain(s).0.lost > s.lost
  {
    NotNext(sent, m, idx[0]);
    assert s.held[0] == sent[idx[0]];
    if |idx| > s.window { ReleaseLoses(s); }
  }

  lemma {:induction false} LostOnlyGrows(s: State)
    ensures Drain(s).0.lost >= s.lost
    decreases |s.held|
  {
    if s.held != [] && !Waits(s) { LostOnlyGrows(Release(s)); }
  }

  // ---- one arrival ------------------------------------------------------

  function Place(idx: seq<nat>, j: nat): (r: nat)
    ensures r <= |idx| && (forall i :: 0 <= i < r ==> idx[i] < j) && (r < |idx| ==> idx[r] >= j)
  {
    if idx == [] || idx[0] >= j then 0 else 1 + Place(idx[1..], j)
  }

  /** The wrapping search finds the place the positions give. */
  lemma {:induction false} SlotIsPlace(held: seq<Packet>, sent: seq<Packet>, m: nat, idx: seq<nat>, j: nat)
    requires Consecutive(sent) && At(held, sent, idx) && Ahead(idx, m, |sent|)
    requires m <= j < |sent| && j < m + HALF16
    ensures Slot(held, sent[j].sequence) == Place(idx, j)
  {
    if idx != [] {
      var a, b, o := sent[idx[0]].sequence, sent[j].sequence, SequenceAt(sent[0].sequence, m);
      PositionDistance(sent[0].sequence, m, idx[0]);
      PositionDistance(sent[0].sequence, m, j);
      Distance16(a, b, o);
      if idx[0] < j { SlotIsPlace(held[1..], sent, m, idx[1..], j); }
    }
  }

  /** Less than half ahead, only the packet at position `j` carries its number. */
  lemma HeldByNumber(held: seq<Packet>, sent: seq<Packet>, m: nat, idx: seq<nat>, j: nat)
    requires Consecutive(sent) && At(held, sent, idx) && Ahead(idx, m, |sent|)
    requires m <= j < |sent| && j < m + HALF16 && j !in idx
    ensures !Holds(held, sent[j].sequence)
  {
    forall i | 0 <= i < |idx| ensures held[i].sequence != sent[j].sequence {
      assert idx[i] in idx;
      PositionDistance(sent[0].sequence, m, idx[i]);
      PositionDistance(sent[0].sequence, m, j);
    }
  }

  function With(idx: seq<nat>, j: nat): seq<nat> {
    Splice(idx, Place(idx, j), j)
  }

  lemma WithMembers(idx: seq<nat>, j: nat)
    ensures forall i :: i in With(idx, j) <==> i == j || i in idx
  {
    var p := Place(idx, j);
    assert idx == idx[..p] + idx[p..];
  }

  /** Each neighbour of the new position is strictly on its side of it. */
  lemma PlaceSplits(idx: seq<nat>, j: nat)
    requires Rising(idx) && j !in idx
    ensures var p := Place(idx, j); forall i :: p <= i < |idx| ==> idx[i] > j
  {
    var p := Place(idx, j);
    if p < |idx| { assert idx[p] in idx; }
  }

  lemma WithAhead(idx: seq<nat>, m: nat, n: nat, j: nat)
    requires Ahead(idx, m, n) && m <= j < n && j < m + HALF16 && j !in idx
    ensures Ahead(With(idx, j), m, n)
    ensures forall i :: i in With(idx, j) <==> i == j || i in idx
  {
    PlaceSplits(idx, j);
    SpliceAt(idx, Place(idx, j), j);
    WithMembers(idx, j);
  }

  lemma InsertStands(s: State, sent: seq<Packet>, m: nat, idx: seq<nat>, j: nat)
    requires Consecutive(sent) && Stands(s, sent, m, idx) && m <= j < |sent| && j < m + HALF16 && j !in idx
    ensures !Refused(s, sent[j].sequence)
    ensures Stands(Inserted(s, sent[j]), sent, m, With(idx, j))
  {
    HeldByNumber(s.held, sent, m, idx, j);
    PositionDistance(sent[0].sequence, m, j);
    SlotIsPlace(s.held, sent, m, idx, j);
    WithAhead(idx, m, |sent|, j);
    var p := Place(idx, j);
    SpliceAt(idx, p, j);
    SpliceAt(s.held, p, sent[j]);
  }

  /** A datagram half the number space ahead looks old, and is refused. */
  lemma FarAheadRefused(s: State, sent: seq<Packet>, m: nat, idx: seq<nat>, j: nat)
    requires Consecutive(sent) && Stands(s, sent, m, idx) && m + HALF16 <= j < |sent| && j < m + 0x1_0000
    ensures Refused(s, sent[j].sequence)
  {
    PositionDistance(sent[0].sequence, m, j);
  }

  // ---- whole runs -------------------------------------------------------

  function After(sent: seq<Packet>, order: seq<nat>, k: nat, window: nat): Log
    requires IsOrder(order, |sent|) && k <= |sent|
  {
    Run(Start(window), Arrivals(sent, order, k))
  }

  lemma AfterNext(sent: seq<Packet>, order: seq<nat>, k: nat, window: nat)
    requires IsOrder(order, |sent|) && k < |sent|
    ensures After(sent, order, k + 1, window) == Step(After(sent, order, k, window), sent[order[k]])
  {
    hide Step;
    var a := Arrivals(sent, order, k + 1);
    assert a[..k] == Arrivals(sent, order, k) && a[k] == sent[order[k]];
    RunLast(Start(window), a);
  }

  /** The first `m` packets are out, in order, with no loss; what overtook is held. */
  ghost predicate RestoredTo(l: Log, sent: seq<Packet>, got: seq<nat>, m: nat, idx: seq<nat>) {
    && Stands(l.s, sent, m, idx)
    && (forall i :: i in idx <==> i in got && i > m)
    && l.out == sent[..m] && l.s.lost == 0 && l.refused == []
  }

  ghost predicate Restored(l: Log, sent: seq<Packet>, order: seq<nat>, k: nat, idx: seq<nat>)
    requires k <= |order|
  {
    RestoredTo(l, sent, order[..k], MissingAfter(order, k), idx)
  }

  /** Some packet is already lost for good, or the wrong one came out first. */
  predicate Doomed(l: Log, sent: seq<Packet>)
    requires sent != []
  {
    l.s.lost > 0 || l.refused != [] || (l.out != [] && l.out[0] != sent[0])
  }

  function Members(idx: seq<nat>): set<nat> { set i | i in idx }

  lemma MembersSnoc(front: seq<nat>, x: nat)
    ensures Members(front + [x]) == Members(front) + {x}
  {
  }

  lemma RisingLast(front: seq<nat>, x: nat)
    requires Rising(front + [x])
    ensures Rising(front) && x !in Members(front)
  {
    forall i, j | 0 <= i < j < |front| ensures front[i] < front[j] {
      assert (front + [x])[i] < (front + [x])[j];
    }
    forall i | 0 <= i < |front| ensures front[i] != x { assert (front + [x])[i] < (front + [x])[|front|]; }
  }

  lemma {:induction false} RisingSize(idx: seq<nat>)
    requires Rising(idx)
    ensures |Members(idx)| == |idx|
  {
    if idx != [] {
      hide Rising, Members;
      var front, x := idx[..|idx| - 1], idx[|idx| - 1];
      assert idx == front + [x];
      RisingLast(front, x);
      RisingSize(front);
      MembersSnoc(front, x);
    }
  }

  /** What is held past the run is what arrived past the new smallest missing. */
  lemma RestIsPast(got: seq<nat>, m: nat, idx: seq<nat>, r: nat)
    requires Rising(idx) && r <= |idx|
    requires forall i :: 0 <= i < m ==> i in got
    requires forall i :: i >= m ==> (i in idx <==> i in got)
    requires forall i :: 0 <= i < r ==> idx[i] == m + i
    requires forall i :: r <= i < |idx| ==> idx[i] > m + r
    ensures forall i :: i in idx[r..] <==> i in got && i > m + r
    ensures forall i :: 0 <= i < m + r ==> i in got
  {
    forall i ensures i in idx[r..] <==> i in got && i > m + r {
      if i in got && i > m + r {
        var k :| 0 <= k < |idx| && idx[k] == i;
        assert idx[r..][k - r] == i;
      }
      if i in idx[r..] {
        var k :| 0 <= k < |idx[r..]| && idx[r..][k] == i;
        assert idx[r + k] == i;
      }
    }
    forall i | m <= i < m + r ensures i in got { assert idx[i - m] in idx; }
  }

  /** After arrival `k`, the run from `m` is exactly what is no longer missing. */
  lemma RunIsFound(order: seq<nat>, k: nat, m: nat, idx: seq<nat>)
    requires k <= |order| && m <= |order| && Ahead(idx, m, |order|)
    requires forall i :: 0 <= i < m ==> i in order[..k]
    requires forall i :: i >= m ==> (i in idx <==> i in order[..k])
    ensures var r := RunLength(idx, m);
      && MissingAfter(order, k) == m + r
      && (forall i :: i in idx[r..] <==> i in order[..k] && i > m + r)
      && |Overtaking(order, k)| == |idx| - r
  {
    var r := RunLength(idx, m);
    RunStops(idx, m);
    RestIsPast(order[..k], m, idx, r);
    if r > 0 { assert idx[r - 1] == m + r - 1; }
    FirstMissingIs(order[..k], 0, |order|, m + r);
    assert Overtaking(order, k) == Members(idx[r..]);
    RisingSize(idx[r..]);
  }

  lemma {:induction false} RunStops(idx: seq<nat>, m: nat)
    requires (forall i :: 0 <= i < |idx| ==> m <= idx[i]) && forall i, j :: 0 <= i < j < |idx| ==> idx[i] < idx[j]
    ensures var r := RunLength(idx, m); m + r !in idx && forall i :: r <= i < |idx| ==> idx[i] > m + r
  {
    if idx != [] && idx[0] == m { RunStops(idx[1..], m + 1); }
  }

  lemma {:induction false} FirstMissingIs(got: seq<nat>, from: nat, n: nat, x: nat)
    requires from <= x <= n && (forall i :: from <= i < x ==> i in got) && x !in got
    ensures FirstMissing(got, from, n) == x
    decreases n - from
  {
    if from < x { FirstMissingIs(got, from + 1, n, x); }
  }

  // ---- the theorem ------------------------------------------------------

  lemma FirstArrival(sent: seq<Packet>, order: seq<nat>, window: nat)
    requires Consecutive(sent) && IsOrder(order, |sent|)
    ensures ArrivalOk(order, 0, window) <==> order[0] == 0
    ensures order[0] == 0 ==> Restored(After(sent, order, 1, window), sent, order, 1, [])
    ensures 0 < order[0] < 0x1_0000 ==> Doomed(After(sent, order, 1, window), sent)
    ensures After(sent, order, 1, window).s.window == window
  {
    hide Drain, Inserted, AfterPush;
    var first := sent[0].sequence;
    AfterNext(sent, order, 0, window);
    assert Arrivals(sent, order, 0) == [];
    FirstPush(Fresh(window), sent[order[0]]);
    var l := After(sent, order, 1, window);
    assert l.out == [sent[order[0]]];
    assert order[..1] == [order[0]];
    if order[0] == 0 {
      PositionDistance(first, 0, 0);
      FirstMissingIs(order[..1], 0, |order|, 1);
      assert sent[..1] == [sent[0]];
      assert Overtaking(order, 1) == {};
    } else if order[0] < 0x1_0000 {
      PositionDistance(first, 0, order[0]);
      PositionDistance(first, 0, 0);
    }
  }

  lemma InsertedKeeps(s: State, p: Packet, idx: seq<nat>, j: nat)
    ensures Inserted(s, p).window == s.window && Inserted(s, p).lost == s.lost && |With(idx, j)| == |idx| + 1
  {
  }

  /** One accepted push, over positions. */
  lemma PushStands(s: State, sent: seq<Packet>, m: nat, idx: seq<nat>, j: nat)
    requires Consecutive(sent) && Stands(s, sent, m, idx) && m <= j < |sent| && j < m + HALF16 && j !in idx
    ensures !Refused(s, sent[j].sequence)
    ensures var (s', out) := AfterPush(s, sent[j]);
      var r := RunLength(With(idx, j), m);
      if |idx| + 1 - r <= s.window then
        m + r <= |sent| && Stands(s', sent, m + r, With(idx, j)[r..]) && s'.lost == s.lost && out == sent[m..m + r]
      else s'.lost > s.lost
  {
    hide Drain, Stands, Inserted, With, Refused;
    InsertedKeeps(s, sent[j], idx, j);
    InsertStands(s, sent, m, idx, j);
    DrainStands(Inserted(s, sent[j]), sent, m, With(idx, j));
  }

  /** Over positions, what came out and what is held after arrival `k`. */
  predicate MovedOn(l: Log, sent: seq<Packet>, m: nat, all: seq<nat>, window: nat) {
    var r := RunLength(all, m);
    if |all| - r <= window then
      m + r <= |sent| && Stands(l.s, sent, m + r, all[r..])
      && l.out == sent[..m + r] && l.s.lost == 0 && l.refused == []
    else l.s.lost > 0
  }

  lemma StepRestores(l: Log, sent: seq<Packet>, got: seq<nat>, m: nat, idx: seq<nat>, j: nat)
    requires Consecutive(sent) && RestoredTo(l, sent, got, m, idx)
    requires m <= j < |sent| && j < m + HALF16 && j !in got
    ensures MovedOn(Step(l, sent[j]), sent, m, With(idx, j), l.s.window)
  {
    hide With, RunLength, AfterPush;
    PushStands(l.s, sent, m, idx, j);
    InsertedKeeps(l.s, sent[j], idx, j);
    var r := RunLength(With(idx, j), m);
    if |idx| + 1 - r <= l.s.window { assert sent[..m] + sent[m..m + r] == sent[..m + r]; }
  }

  lemma MovedOnRestores(l: Log, sent: seq<Packet>, order: seq<nat>, k: nat, m: nat, all: seq<nat>, window: nat)
    requires |order| == |sent| && k <= |order| && m <= |order| && Ahead(all, m, |order|)
    requires forall i :: 0 <= i < m ==> i in order[..k]
    requires forall i :: i >= m ==> (i in all <==> i in order[..k])
    requires MovedOn(l, sent, m, all, window)
    ensures if |Overtaking(order, k)| <= window then Restored(l, sent, order, k, all[RunLength(all, m)..])
            else l.s.lost > 0
  {
    RunIsFound(order, k, m, all);
  }

  lemma WithArrived(order: seq<nat>, k: nat, m: nat, idx: seq<nat>, got: seq<nat>)
    requires k < |order| && got == order[..k + 1] && Ahead(idx, m, |order|) && m == MissingAfter(order, k)
    requires order[k] !in order[..k] && m <= order[k] < m + HALF16 && order[k] < |order|
    requires forall i :: i in idx <==> i in order[..k] && i > m
    ensures Ahead(With(idx, order[k]), m, |order|)
    ensures forall i :: 0 <= i < m ==> i in got
    ensures forall i :: i >= m ==> (i in With(idx, order[k]) <==> i in got)
  {
    assert got == order[..k] + [order[k]];
    WithAhead(idx, m, |order|, order[k]);
    assert m < |order|;
  }

  lemma NearArrival(sent: seq<Packet>, order: seq<nat>, window: nat, k: nat, idx: seq<nat>, l: Log)
    returns (idx': seq<nat>)
    requires Consecutive(sent) && IsOrder(order, |sent|) && k < |sent|
    requires Restored(l, sent, order, k, idx) && l.s.window == window
    requires order[k] !in order[..k] && MissingAfter(order, k) <= order[k] < MissingAfter(order, k) + HALF16
    ensures if |Overtaking(order, k + 1)| <= window then Restored(Step(l, sent[order[k]]), sent, order, k + 1, idx')
            else Step(l, sent[order[k]]).s.lost > 0
  {
    hide Step, MovedOn, Overtaking, With, RunLength, At, FirstMissing, Ahead;
    var j, m := order[k], MissingAfter(order, k);
    StepRestores(l, sent, order[..k], m, idx, j);
    WithArrived(order, k, m, idx, order[..k + 1]);
    MovedOnRestores(Step(l, sent[j]), sent, order, k + 1, m, With(idx, j), window);
    idx' := With(idx, j)[RunLength(With(idx, j), m)..];
  }

  lemma NextArrival(sent: seq<Packet>, order: seq<nat>, window: nat, k: nat, idx: seq<nat>) returns (idx': seq<nat>)
    requires Consecutive(sent) && IsOrder(order, |sent|) && 0 < k < |sent|
    requires Restored(After(sent, order, k, window), sent, order, k, idx)
    requires After(sent, order, k, window).s.window == window
    ensures ArrivalOk(order, k, window) ==> Restored(After(sent, order, k + 1, window), sent, order, k + 1, idx')
    ensures !ArrivalOk(order, k, window) && order[k] < MissingAfter(order, k) + 0x1_0000 ==>
      Doomed(After(sent, order, k + 1, window), sent)
  {
    AfterNext(sent, order, k, window);
    assert order[k] !in order[..k];
    if order[k] < MissingAfter(order, k) + HALF16 {
      idx' := NearArrival(sent, order, window, k, idx, After(sent, order, k, window));
    } else {
      if order[k] < MissingAfter(order, k) + 0x1_0000 {
        FarAheadRefused(After(sent, order, k, window).s, sent, MissingAfter(order, k), idx, order[k]);
      }
      idx' := [];
    }
  }

  lemma WindowKept(sent: seq<Packet>, order: seq<nat>, window: nat, k: nat)
    requires IsOrder(order, |sent|) && k <= |sent|
    ensures After(sent, order, k, window).s.window == window
  {
    LossConservation(window, Arrivals(sent, order, k));
  }

  lemma {:induction false} GoodPrefix(sent: seq<Packet>, order: seq<nat>, window: nat, k: nat) returns (idx: seq<nat>)
    requires Consecutive(sent) && IsOrder(order, |sent|) && 0 < k <= |sent|
    requires forall i :: 0 <= i < k ==> ArrivalOk(order, i, window)
    ensures Restored(After(sent, order, k, window), sent, order, k, idx)
  {
    if k == 1 {
      FirstArrival(sent, order, window);
      idx := [];
    } else {
      var before := GoodPrefix(sent, order, window, k - 1);
      WindowKept(sent, order, window, k - 1);
      idx := NextArrival(sent, order, window, k - 1, before);
    }
  }

  lemma StepDoomed(l: Log, sent: seq<Packet>, p: Packet)
    requires sent != [] && Doomed(l, sent)
    ensures Doomed(Step(l, p), sent)
  {
    if !Refused(l.s, p.sequence) { LostOnlyGrows(Inserted(l.s, p)); }
  }

  lemma {:induction false} StaysDoomed(sent: seq<Packet>, order: seq<nat>, window: nat, k: nat, n: nat)
    requires IsOrder(order, |sent|) && k <= n <= |sent| && sent != []
    requires Doomed(After(sent, order, k, window), sent)
    ensures Doomed(After(sent, order, n, window), sent)
    decreases n
  {
    hide Doomed, Step, Run;
    if k < n {
      StaysDoomed(sent, order, window, k, n - 1);
      AfterNext(sent, order, n - 1, window);
      StepDoomed(After(sent, order, n - 1, window), sent, sent[order[n - 1]]);
    }
  }

  /** The first arrival that is not as the window needs it spoils the run. */
  lemma BadArrival(sent: seq<Packet>, order: seq<nat>, window: nat, k: nat)
    requires Consecutive(sent) && IsOrder(order, |sent|) && k < |sent|
    requires !ArrivalOk(order, k, window) && forall i :: 0 <= i < k ==> ArrivalOk(order, i, window)
    requires order[k] < MissingAfter(order, k) + 0x1_0000
    ensures Doomed(After(sent, order, |sent|, window), sent)
  {
    if k == 0 {
      assert order[..0] == [];
      FirstMissingIs(order[..0], 0, |order|, 0);
      FirstArrival(sent, order, window);
    } else {
      var idx := GoodPrefix(sent, order, window, k);
      WindowKept(sent, order, window, k);
      var _ := NextArrival(sent, order, window, k, idx);
    }
    StaysDoomed(sent, order, window, k + 1, |sent|);
  }

  lemma CountsAdd(sent: seq<Packet>, order: seq<nat>, window: nat)
    requires IsOrder(order, |sent|)
    ensures var l := After(sent, order, |sent|, window); |l.out| + |l.s.held| + |l.refused| == |sent|
  {
    var l := After(sent, order, |sent|, window);
    LossConservation(window, Arrivals(sent, order, |sent|));
    assert |multiset(l.arrived)| == |multiset(l.out)| + |multiset(l.s.held)| + |multiset(l.refused)|;
  }

  lemma {:induction false} RisingPast(idx: seq<nat>, m: nat, i: nat)
    requires Rising(idx) && i < |idx| && idx[0] > m
    ensures idx[i] > m + i
  {
    if i > 0 { RisingPast(idx, m, i - 1); }
  }

  lemma FirstBad(order: seq<nat>, window: nat) returns (k: nat)
    requires exists i :: 0 <= i < |order| && !ArrivalOk(order, i, window)
    ensures k < |order| && !ArrivalOk(order, k, window) && forall i :: 0 <= i < k ==> ArrivalOk(order, i, window)
  {
    k := 0;
    while ArrivalOk(order, k, window)
      invariant k < |order| && forall i :: 0 <= i < k ==> ArrivalOk(order, i, window)
      invariant exists i :: k <= i < |order| && !ArrivalOk(order, i, window)
      decreases |order| - k
    {
      k := k + 1;
    }
  }

  /** Arrivals as the window needs them come out in the order of sending. */
  lemma GoodOrderRestores(sent: seq<Packet>, order: seq<nat>, window: nat)
    requires Consecutive(sent) && IsOrder(order, |sent|)
    requires forall k :: 0 <= k < |sent| ==> ArrivalOk(order, k, window)
    ensures var l := After(sent, order, |sent|, window); l.out == sent && l.s.lost == 0
  {
    var n := |sent|;
    CountsAdd(sent, order, window);
    var idx := GoodPrefix(sent, order, window, n);
    var m := MissingAfter(order, n);
    if idx != [] {
      assert idx[0] in idx;
      RisingPast(idx, m, |idx| - 1);
    }
    assert sent[..n] == sent;
  }

  /** Exactly when the window restores the order of sending: consecutive datagrams, any
      number of them, all come out in send order with nothing counted lost if and only
      if the lowest arrives first, none arrives 32768 or more ahead of the smallest one
      missing, and at no time have more than `window` overtaken the smallest one
      missing; given that none arrives a whole trip round the number space ahead. */
  lemma RestoresOrderExactlyWhen(sent: seq<Packet>, order: seq<nat>, window: nat)
    requires Consecutive(sent) && IsOrder(order, |sent|) && WithinTrip(order)
    ensures var l := After(sent, order, |sent|, window);
      (l.out == sent && l.s.lost == 0) <==> forall k :: 0 <= k < |sent| ==> ArrivalOk(order, k, window)
  {
    CountsAdd(sent, order, window);
    if forall k :: 0 <= k < |sent| ==> ArrivalOk(order, k, window) {
      GoodOrderRestores(sent, order, window);
    } else {
      var k := FirstBad(order, window);
      BadArrival(sent, order, window, k);
    }
  }

  // ---- arrivals a whole trip ahead --------------------------------------

  predicate Distinct(sent: seq<Packet>) { forall i, j :: 0 <= i < j < |sent| ==> sent[i] != sent[j] }

  /** As long as nothing is lost, this packet is, or will be, delivery `c`. */
  predicate Placed(s: State, out: seq<Packet>, p: Packet, c: nat) {
    || (c < |out| && out[c] == p)
    || (s.next.Some? && p in s.held && |out| + Sub16(p.sequence, s.next.value) == c)
  }

  lemma {:induction false} SpanAtLeast(from: u16, out: seq<Packet>)
    ensures Span(from, out) >= |out|
    decreases |out|
  {
    if out != [] { SpanAtLeast(Next16(out[0].sequence), out[1..]); }
  }

  lemma SpanFirst(from: u16, out: seq<Packet>)
    requires out != []
    ensures Span(from, out) == Sub16(out[0].sequence, from) + 1 + Span(Next16(out[0].sequence), out[1..])
  {
    hide Sub16, Next16;
  }

  lemma NoDistance(a: u16, b: u16)
    ensures Sub16(a, b) == 0 ==> a == b
  {
  }

  lemma TightFirst(from: u16, out: seq<Packet>)
    requires out != [] && Span(from, out) == |out|
    ensures out[0].sequence == from && Span(Next16(from), out[1..]) == |out[1..]|
  {
    hide Span, Sub16, Next16;
    SpanFirst(from, out);
    SpanAtLeast(Next16(out[0].sequence), out[1..]);
    NoDistance(out[0].sequence, from);
  }

  lemma SequenceLater(from: u16, i: nat)
    ensures SequenceAt(Next16(from), i) == SequenceAt(from, i + 1) && SequenceAt(from, 0) == from
  {
  }

  lemma NextAfterRest(from: u16, out: seq<Packet>)
    requires out != []
    ensures NextAfter(from, out) == NextAfter(Next16(out[0].sequence), out[1..])
  {
  }

  /** Delivering without a skip goes through the numbers one by one. */
  lemma {:induction false} SpanTight(from: u16, out: seq<Packet>)
    requires Span(from, out) == |out|
    ensures NextAfter(from, out) == SequenceAt(from, |out|)
    ensures forall i :: 0 <= i < |out| ==> out[i].sequence == SequenceAt(from, i)
    decreases |out|
  {
    hide Span, SequenceAt, Next16, NextAfter;
    SequenceLater(from, 0);
    if out == [] {
      NextAfterNone(from);
    } else {
      TightFirst(from, out);
      SpanTight(Next16(from), out[1..]);
      NextAfterRest(from, out);
      SequenceLater(from, |out| - 1);
      forall i | 0 <= i < |out| ensures out[i].sequence == SequenceAt(from, i) {
        if i > 0 {
          SequenceLater(from, i - 1);
          assert out[i] == out[1..][i - 1];
        }
      }
    }
  }

  lemma NextAfterNone(from: u16)
    ensures NextAfter(from, []) == from
  {
  }

  /** Ascending distances leave room for those before. */
  lemma {:induction false} AscendsRoom(held: seq<Packet>, origin: u16, i: nat)
    requires Ascends(held, origin) && i < |held|
    ensures Sub16(held[i].sequence, origin) >= i
  {
    if i > 0 { AscendsRoom(held, origin, i - 1); }
  }

  lemma MovedBy(q: u16, from: u16, n: nat)
    requires n <= Sub16(q, from)
    ensures Sub16(q, SequenceAt(from, n)) == Sub16(q, from) - n
  {
  }

  lemma AheadOf(from: u16, i: nat)
    requires i < HALF16
    ensures Sub16(SequenceAt(from, i), from) == i
  {
  }

  /** A drain that loses nothing leaves the place of what is held. */
  lemma DrainPlaces(s: State, out: seq<Packet>, p: Packet, c: nat)
    requires s.next.Some? && Ascends(s.held, s.next.value) && Placed(s, out, p, c)
    ensures var (s', more) := Drain(s); s'.lost > s.lost || Placed(s', out + more, p, c)
  {
    hide Drain, Sub16, SequenceAt, NextAfter, Span;
    DrainTidies(s);
    DrainAccounts(s);
    var from := s.next.value;
    var (s', more) := Drain(s);
    if s'.lost == s.lost && !(c < |out| && out[c] == p) {
      SpanTight(from, more);
      var i :| 0 <= i < |s.held| && s.held[i] == p;
      AscendsRoom(s.held, from, i);
      if i < |more| {
        AheadOf(from, i);
        assert (out + more)[c] == more[i];
      } else {
        MovedBy(p.sequence, from, |more|);
        assert s'.held[i - |more|] == p;
      }
    }
  }

  lemma InsertPlaces(s: State, p: Packet, out: seq<Packet>, x: Packet, c: nat)
    requires Placed(s, out, x, c)
    ensures Placed(Inserted(s, p), out, x, c) && p in Inserted(s, p).held
    ensures Inserted(s, p).next == s.next && Inserted(s, p).lost == s.lost
  {
    var k := Slot(s.held, p.sequence);
    SpliceAt(s.held, k, p);
    if x in s.held {
      var i :| 0 <= i < |s.held| && s.held[i] == x;
      assert Splice(s.held, k, p)[if i < k then i else i + 1] == x;
    }
  }

  /** So does a push that is not refused. */
  lemma PushPlaces(l: Log, p: Packet, x: Packet, c: nat)
    requires Tidy(l.s) && l.s.next.Some? && !Refused(l.s, p.sequence) && Placed(l.s, l.out, x, c)
    ensures Step(l, p).s.lost > l.s.lost || Placed(Step(l, p).s, Step(l, p).out, x, c)
  {
    hide Drain, Sub16, Placed, Inserted;
    InsertAscends(l.s, p, l.s.next.value);
    InsertPlaces(l.s, p, l.out, x, c);
    DrainPlaces(Inserted(l.s, p), l.out, x, c);
  }

  /** A packet that is taken in gets the place its number gives. */
  lemma TakenIn(l: Log, p: Packet) returns (c: nat)
    requires Tidy(l.s) && l.s.next.Some? && !Refused(l.s, p.sequence)
    ensures |l.out| <= c < |l.out| + HALF16
    ensures Step(l, p).s.lost > l.s.lost || Placed(Step(l, p).s, Step(l, p).out, p, c)
  {
    c := |l.out| + Sub16(p.sequence, l.s.next.value);
    InsertAscends(l.s, p, l.s.next.value);
    var k := Slot(l.s.held, p.sequence);
    SpliceAt(l.s.held, k, p);
    assert Inserted(l.s, p).held[k] == p;
    DrainPlaces(Inserted(l.s, p), l.out, p, c);
  }

  /** Something is lost already, or some packet is, or will be, delivered out of place. */
  ghost predicate Astray(l: Log, sent: seq<Packet>)
    requires sent != []
  {
    Doomed(l, sent) || exists j, c: nat :: 0 <= j < |sent| && c != j && Placed(l.s, l.out, sent[j], c)
  }

  lemma StepAstray(l: Log, sent: seq<Packet>, p: Packet)
    requires sent != [] && Astray(l, sent) && Conserves(l) && l.out != []
    ensures Astray(Step(l, p), sent)
  {
    hide Step, Placed;
    if Doomed(l, sent) {
      StepDoomed(l, sent, p);
    } else if Refused(l.s, p.sequence) {
      RefusedDooms(l, sent, p);
    } else {
      var j, c: nat :| 0 <= j < |sent| && c != j && Placed(l.s, l.out, sent[j], c);
      PushPlaces(l, p, sent[j], c);
    }
  }

  lemma RefusedDooms(l: Log, sent: seq<Packet>, p: Packet)
    requires sent != [] && Refused(l.s, p.sequence)
    ensures Doomed(Step(l, p), sent)
  {
  }

  lemma OutBefore(sent: seq<Packet>, order: seq<nat>, window: nat, k: nat)
    requires IsOrder(order, |sent|) && 0 < k <= |sent|
    ensures Conserves(After(sent, order, k, window)) && After(sent, order, k, window).out != []
  {
    LossConservation(window, Arrivals(sent, order, k));
    LossConservation(window, Arrivals(sent, order, 1));
    OutStays(sent, order, window, k);
  }

  lemma {:induction false} OutStays(sent: seq<Packet>, order: seq<nat>, window: nat, k: nat)
    requires IsOrder(order, |sent|) && 0 < k <= |sent|
    ensures After(sent, order, k, window).out != []
  {
    AfterNext(sent, order, k - 1, window);
    if k == 1 {
      assert Arrivals(sent, order, 0) == [];
      FirstPush(Fresh(window), sent[order[0]]);
    } else {
      OutStays(sent, order, window, k - 1);
    }
  }

  lemma {:induction false} StaysAstray(sent: seq<Packet>, order: seq<nat>, window: nat, k: nat, n: nat)
    requires IsOrder(order, |sent|) && 0 < k <= n <= |sent| && Astray(After(sent, order, k, window), sent)
    ensures Astray(After(sent, order, n, window), sent)
    decreases n
  {
    hide After, Astray, Step;
    if k < n {
      StaysAstray(sent, order, window, k, n - 1);
      AfterNext(sent, order, n - 1, window);
      OutBefore(sent, order, window, n - 1);
      StepAstray(After(sent, order, n - 1, window), sent, sent[order[n - 1]]);
    }
  }

  /** A packet a whole trip ahead is refused, or taken for an earlier one. */
  lemma TripAstray(l: Log, sent: seq<Packet>, got: seq<nat>, m: nat, idx: seq<nat>, j: nat)
    requires Consecutive(sent) && RestoredTo(l, sent, got, m, idx) && Tidy(l.s)
    requires m + 0x1_0000 <= j < |sent|
    ensures Astray(Step(l, sent[j]), sent)
  {
    hide Step, Placed, Refused;
    if Refused(l.s, sent[j].sequence) {
      RefusedDooms(l, sent, sent[j]);
    } else {
      var c := TakenIn(l, sent[j]);
    }
  }

  lemma BadAstray(sent: seq<Packet>, order: seq<nat>, window: nat, k: nat)
    requires Consecutive(sent) && IsOrder(order, |sent|) && Distinct(sent) && k < |sent|
    requires !ArrivalOk(order, k, window) && forall i :: 0 <= i < k ==> ArrivalOk(order, i, window)
    ensures Astray(After(sent, order, k + 1, window), sent)
  {
    if k == 0 {
      FirstArrival(sent, order, window);
      AfterNext(sent, order, 0, window);
      assert Arrivals(sent, order, 0) == [];
      FirstPush(Fresh(window), sent[order[0]]);
    } else {
      var idx := GoodPrefix(sent, order, window, k);
      WindowKept(sent, order, window, k);
      AfterNext(sent, order, k, window);
      if order[k] < MissingAfter(order, k) + 0x1_0000 {
        var _ := NextArrival(sent, order, window, k, idx);
      } else {
        LossConservation(window, Arrivals(sent, order, k));
        TripAstray(After(sent, order, k, window), sent, order[..k], MissingAfter(order, k), idx, order[k]);
      }
    }
  }

  /** Of datagrams that all differ the same holds without that condition: an arrival a
      whole trip ahead is itself one the window cannot undo. */
  lemma DistinctRestoredExactlyWhen(sent: seq<Packet>, order: seq<nat>, window: nat)
    requires Consecutive(sent) && IsOrder(order, |sent|) && Distinct(sent)
    ensures var l := After(sent, order, |sent|, window);
      (l.out == sent && l.s.lost == 0) <==> forall k :: 0 <= k < |sent| ==> ArrivalOk(order, k, window)
  {
    CountsAdd(sent, order, window);
    if forall k :: 0 <= k < |sent| ==> ArrivalOk(order, k, window) {
      GoodOrderRestores(sent, order, window);
    } else {
      var k := FirstBad(order, window);
      BadAstray(sent, order, window, k);
      StaysAstray(sent, order, window, k + 1, |sent|);
      AstrayIsNot(After(sent, order, |sent|, window), sent);
    }
  }

  lemma AstrayIsNot(l: Log, sent: seq<Packet>)
    requires sent != [] && Distinct(sent) && Astray(l, sent) && |l.out| + |l.s.held| + |l.refused| == |sent|
    ensures !(l.out == sent && l.s.lost == 0)
  {
    if !Doomed(l, sent) {
      var j, c: nat :| 0 <= j < |sent| && c != j && Placed(l.s, l.out, sent[j], c);
      OutOfPlace(l, sent, j, c);
    }
  }

  lemma OutOfPlace(l: Log, sent: seq<Packet>, j: nat, c: nat)
    requires Distinct(sent) && |l.out| + |l.s.held| + |l.refused| == |sent|
    requires j < |sent| && c != j && Placed(l.s, l.out, sent[j], c)
    ensures l.out != sent
  {
  }

  function InOrder(n: nat): seq<nat> { seq(n, i requires 0 <= i < n => i) }

  lemma InOrderOk(n: nat, k: nat, window: nat)
    requires k < n
    ensures IsOrder(InOrder(n), n) && ArrivalOk(InOrder(n), k, window)
  {
    var order := InOrder(n);
    forall j: nat | j <= n ensures MissingAfter(order, j) == j {
      forall i | 0 <= i < j ensures i in order[..j] { assert order[..j][i] == i; }
      FirstMissingIs(order[..j], 0, n, j);
    }
    var over := Overtaking(order, k + 1);
    forall i: nat ensures i !in over { assert i in order[..k + 1] ==> i < k + 1; }
    assert over == {};
  }

  /** The first and the one a whole trip later change places. */
  function Swapped(): seq<nat> { InOrder(0x1_0001)[0 := 0x1_0000][0x1_0000 := 0] }

  /** Where two packets a trip apart are equal, one stands in for the other: the order is
      restored, although the lowest does not come first. */
  lemma StandIn(sent: seq<Packet>, window: nat)
    requires Consecutive(sent) && |sent| == 0x1_0001 && sent[0] == sent[0x1_0000]
    ensures IsOrder(Swapped(), |sent|) && !ArrivalOk(Swapped(), 0, window)
    ensures var l := After(sent, Swapped(), |sent|, window); l.out == sent && l.s.lost == 0
  {
    var n := |sent|;
    forall k | 0 <= k < n ensures IsOrder(InOrder(n), n) && ArrivalOk(InOrder(n), k, window) {
      InOrderOk(n, k, window);
    }
    assert IsOrder(InOrder(n), n) && ArrivalOk(InOrder(n), 0, window);
    GoodOrderRestores(sent, InOrder(n), window);
    assert Arrivals(sent, Swapped(), n) == Arrivals(sent, InOrder(n), n);
  }

  // ---- from the packetizer through the window ---------------------------

  predicate AllParse(ds: seq<seq<u8>>) { forall i :: 0 <= i < |ds| ==> Parse(ds[i]).Some? }

  function ParsedAll(ds: seq<seq<u8>>): seq<Packet>
    requires AllParse(ds)
  {
    seq(|ds|, i requires 0 <= i < |ds| => Parse(ds[i]).value)
  }

  function Payloads(ps: seq<Packet>): seq<seq<u8>> { seq(|ps|, i requires 0 <= i < |ps| => ps[i].payload) }

  /** The datagrams of a stream parse to consecutive packets holding the stream. */
  lemma StreamSent(ts: seq<u8>, first: u16, timestamp: u32, ssrc: u32, ds: seq<seq<u8>>)
    requires |ds| == |Groups(ts)|
    requires forall i :: 0 <= i < |ds| ==> ds[i] == Datagram(SequenceAt(first, i), timestamp, ssrc, Groups(ts)[i])
    ensures AllParse(ds) && (ds != [] ==> Consecutive(ParsedAll(ds))) && Concat(Payloads(ParsedAll(ds))) == ts
  {
    hide Datagram, Parse, Concat, Groups;
    TransportRoundTrip(ts, first, timestamp, ssrc, ds);
    assert Payloads(ParsedAll(ds)) == PayloadsOf(ds);
    if ds != [] { SequenceFirst(first); }
  }

  lemma SequenceFirst(first: u16)
    ensures SequenceAt(first, 0) == first
  {
  }

  lemma NothingSent(sent: seq<Packet>, order: seq<nat>, window: nat)
    requires sent == [] && IsOrder(order, |sent|)
    ensures After(sent, order, |sent|, window).out == sent && After(sent, order, |sent|, window).s.lost == 0
  {
  }

  /** From transport stream to transport stream: the datagrams it is cut into, any
      number of them, arriving in any order the window can restore, are parsed, put in
      order and run together to the stream unchanged, with nothing counted lost. */
  lemma StreamComesThrough(ts: seq<u8>, first: u16, timestamp: u32, ssrc: u32, ds: seq<seq<u8>>, order: seq<nat>,
                           window: nat)
    requires |ds| == |Groups(ts)| && IsOrder(order, |ds|)
    requires forall i :: 0 <= i < |ds| ==> ds[i] == Datagram(SequenceAt(first, i), timestamp, ssrc, Groups(ts)[i])
    requires forall k :: 0 <= k < |order| ==> ArrivalOk(order, k, window)
    ensures AllParse(ds)
    ensures var l := After(ParsedAll(ds), order, |ds|, window); Concat(Payloads(l.out)) == ts && l.s.lost == 0
  {
    hide Datagram, Parse, Concat, Groups, After, ArrivalOk, Consecutive;
    StreamSent(ts, first, timestamp, ssrc, ds);
    if ds == [] {
      NothingSent(ParsedAll(ds), order, window);
    } else {
      GoodOrderRestores(ParsedAll(ds), order, window);
    }
  }

  /** The last of `half + 2` datagrams comes second, the others in order. */
  function Hasty(): seq<nat> { [0, HALF16 + 1] + seq(HALF16, i requires 0 <= i < HALF16 => i + 1) }

  lemma HastyAt(k: nat)
    requires k < HALF16 + 2
    ensures |Hasty()| == HALF16 + 2 && Hasty()[k] == if k == 0 then 0 else if k == 1 then HALF16 + 1 else k - 1
  {
  }

  /** At most one has overtaken after arrival `k`. */
  predicate OneOvertakes(order: seq<nat>, k: nat)
    requires k < |order|
  {
    |Overtaking(order, k + 1)| <= 1
  }

  lemma HastyHas(k: nat, j: nat)
    requires j < k < |Hasty()|
    ensures j in Hasty()[..k + 1]
  {
    var at := if j == 0 then 0 else j + 1;
    HastyAt(at);
    assert Hasty()[..k + 1][at] == j;
  }

  lemma HastyAhead(k: nat, i: nat)
    requires k < |Hasty()| && i in Hasty()[..k + 1] && i >= k && i > 0
    ensures i == HALF16 + 1
  {
    var at :| 0 <= at < k + 1 && Hasty()[..k + 1][at] == i;
    HastyAt(at);
  }

  lemma OneAtMost(s: set<nat>, x: nat)
    requires s <= {x}
    ensures |s| <= 1
  {
    if x in s { assert s == {x}; } else { assert s == {}; }
  }

  lemma HastyOvertakes(k: nat)
    requires k < |Hasty()|
    ensures OneOvertakes(Hasty(), k)
  {
    var order := Hasty();
    var m := MissingAfter(order, k + 1);
    if m < k { HastyHas(k, m); }
    var s := Overtaking(order, k + 1);
    forall i: nat | i in s ensures i in {HALF16 + 1} { HastyAhead(k, i); }
    OneAtMost(s, HALF16 + 1);
  }

  lemma HastyIsOrder()
    ensures IsOrder(Hasty(), HALF16 + 2)
  {
    var order := Hasty();
    forall k | 0 <= k < |order| ensures order[k] < |order| { HastyAt(k); }
    forall j, k | 0 <= j < k < |order| ensures order[j] != order[k] {
      HastyAt(j);
      HastyAt(k);
    }
  }

  lemma HastyFails(window: nat)
    ensures !ArrivalOk(Hasty(), 1, window)
  {
    HastyAt(0);
    HastyAt(1);
    assert Hasty()[..1] == [0];
    FirstMissingIs([0], 0, |Hasty()|, 1);
  }

  /** An order of no more than a trip never needs the condition. */
  lemma ShortOrder(order: seq<nat>)
    requires IsOrder(order, |order|) && |order| <= 0x1_0000
    ensures WithinTrip(order)
  {
  }

  /** The half-range clause is needed: here only one datagram ever overtakes, and yet
      the order is not restored, because that datagram looks old and is refused. */
  lemma OvertakingIsNotEnough(sent: seq<Packet>, window: nat)
    requires Consecutive(sent) && |sent| == HALF16 + 2
    ensures IsOrder(Hasty(), |sent|) && Hasty()[0] == 0
    ensures forall k :: 0 <= k < |Hasty()| ==> OneOvertakes(Hasty(), k)
    ensures var l := After(sent, Hasty(), |sent|, window); !(l.out == sent && l.s.lost == 0)
  {
    forall k | 0 <= k < |Hasty()| ensures OneOvertakes(Hasty(), k) { HastyOvertakes(k); }
    HastyIsOrder();
    HastyFails(window);
    ShortOrder(Hasty());
    RestoresOrderExactlyWhen(sent, Hasty(), window);
  }
}
