/** Frames that arrive in any order leave the jitter buffer in theirs. */
module Shuffle {
  import opened Common
  import opened Frames
  import opened Jitter
  import opened JitterRuns
  import opened Playout

  /** Not after what went out last, seen within half the number space. */
  predicate Past(s: State, n: u32) {
    s.lastPopped.Some? && !(0 < Sub32(n, s.lastPopped.value) < HALF32)
  }

  predicate Queued(frames: seq<CompleteFrame>, n: u32) { exists i :: 0 <= i < |frames| && frames[i].frameNumber == n }

  predicate InFront(s: State, n: u32, origin: u32) { s.lastPopped.None? ==> Sub32(n, origin) < HALF32 }

  lemma DuplicateIsQueued(s: State, n: u32, origin: u32)
    requires Ordered(s, origin) && InFront(s, n, origin) && !Past(s, n)
    ensures Duplicate(s, n) <==> Queued(s.frames, n)
  {
    var o := if s.lastPopped.Some? then s.lastPopped.value else origin;
    var i := Slot(s.frames, n);
    SlotIsFirst(s.frames, n);
    if Queued(s.frames, n) {
      var j :| 0 <= j < |s.frames| && s.frames[j].frameNumber == n;
      NewerByDistance(s.frames[j].frameNumber, n, o);
      if i < j { NewerByDistance(s.frames[i].frameNumber, n, o); }
    }
  }

  /** What a push does to an ordered queue: a frame that is not after the last one out is
      counted as dropped, one whose number is queued already is ignored, and any other one
      joins the queue, which stays in order. */
  lemma PushExactly(s: State, f: CompleteFrame, nowUs: nat, origin: u32)
    requires Ordered(s, origin) && InFront(s, f.frameNumber, origin)
    ensures var s1 := AfterPush(s, f, nowUs);
      if Past(s, f.frameNumber) then s1 == s.(dropped := s.dropped + 1)
      else
        && s1 == s.(frames := s1.frames, baseUs := s1.baseUs)
        && s1.baseUs == (if s.baseUs.Some? then s.baseUs else Some(nowUs + 150_000 - f.timestampUs))
        && if Queued(s.frames, f.frameNumber) then s1.frames == s.frames
           else multiset(s1.frames) == multiset(s.frames) + multiset{f} && Ordered(s1, origin)
  {
    hide Ordered, Queued, Duplicate, Splice, Slot;
    LateIsPast(s, f.frameNumber);
    PushOrders(s, f, nowUs, origin);
    if !Past(s, f.frameNumber) {
      DuplicateIsQueued(s, f.frameNumber, origin);
      SpliceAdds(s.frames, Slot(s.frames, f.frameNumber), f);
    }
  }

  lemma LateIsPast(s: State, n: u32)
    ensures Late(s, n) <==> Past(s, n)
  {
  }

  lemma SpliceAdds(frames: seq<CompleteFrame>, i: nat, f: CompleteFrame)
    requires i <= |frames|
    ensures multiset(Splice(frames, i, f)) == multiset(frames) + multiset{f}
  {
    assert frames == frames[..i] + frames[i..];
  }

  // ---- any order of arrival ---------------------------------------------

  /** All of these pushed, one after the other. */
  function Pushed(s: State, fs: seq<CompleteFrame>, at: seq<nat>): State
    requires |fs| == |at|
  {
    if fs == [] then s else AfterPush(Pushed(s, fs[..|fs| - 1], at[..|fs| - 1]), fs[|fs| - 1], at[|fs| - 1])
  }

  /** Frames after `last`, of different numbers. */
  predicate Ahead(fs: seq<CompleteFrame>, last: u32) {
    && (forall i :: 0 <= i < |fs| ==> 0 < Sub32(fs[i].frameNumber, last) < HALF32)
    && forall i, j :: 0 <= i < j < |fs| ==> fs[i].frameNumber != fs[j].frameNumber
  }

  /** Into an empty buffer, in any order: all of them are queued, in order, and nothing is
      dropped. */
  lemma {:induction false} AllJoin(s: State, fs: seq<CompleteFrame>, at: seq<nat>, last: u32)
    requires s.frames == [] && s.lastPopped == Some(last) && |fs| == |at| && Ahead(fs, last)
    ensures var s1 := Pushed(s, fs, at);
      && multiset(s1.frames) == multiset(fs) && OrderedFrom(s1.frames, last) && Ordered(s1, last)
      && s1 == s.(frames := s1.frames, baseUs := s1.baseUs) && (s.baseUs.Some? ==> s1.baseUs == s.baseUs)
      && (fs != [] ==> s1.baseUs.Some?)
  {
    hide AfterPush, OrderedFrom, Ordered, Queued, Ahead, Past;
    if fs == [] {
      EmptyOrdered(s, last);
    } else {
      var k := |fs| - 1;
      AheadPrefix(fs, last);
      AllJoin(s, fs[..k], at[..k], last);
      var s1 := Pushed(s, fs[..k], at[..k]);
      NotQueued(s1.frames, fs, last);
      JoinsOne(s1, fs[k], at[k], last);
      assert fs == fs[..k] + [fs[k]];
    }
  }

  lemma EmptyOrdered(s: State, last: u32)
    requires s.frames == [] && s.lastPopped == Some(last)
    ensures OrderedFrom(s.frames, last) && Ordered(s, last)
  {
  }

  lemma JoinsOne(s: State, f: CompleteFrame, nowUs: nat, last: u32)
    requires Ordered(s, last) && s.lastPopped == Some(last) && !Queued(s.frames, f.frameNumber)
    requires 0 < Sub32(f.frameNumber, last) < HALF32
    ensures var s1 := AfterPush(s, f, nowUs);
      && s1 == s.(frames := s1.frames, baseUs := s1.baseUs) && s1.baseUs.Some?
      && (s.baseUs.Some? ==> s1.baseUs == s.baseUs)
      && multiset(s1.frames) == multiset(s.frames) + multiset{f} && Ordered(s1, last) && OrderedFrom(s1.frames, last)
  {
    hide AfterPush, Queued;
    PushExactly(s, f, nowUs, last);
  }

  lemma AheadPrefix(fs: seq<CompleteFrame>, last: u32)
    requires fs != [] && Ahead(fs, last)
    ensures Ahead(fs[..|fs| - 1], last) && 0 < Sub32(fs[|fs| - 1].frameNumber, last) < HALF32
  {
  }

  lemma NotQueued(frames: seq<CompleteFrame>, fs: seq<CompleteFrame>, last: u32)
    requires fs != [] && Ahead(fs, last) && multiset(frames) == multiset(fs[..|fs| - 1])
    ensures !Queued(frames, fs[|fs| - 1].frameNumber)
  {
    var k := |fs| - 1;
    forall i | 0 <= i < |frames| ensures frames[i].frameNumber != fs[k].frameNumber {
      assert frames[i] in multiset(fs[..k]);
      var j :| 0 <= j < k && fs[..k][j] == frames[i];
    }
  }

  /** There is one order. */
  lemma {:induction false} OneOrder(a: seq<CompleteFrame>, b: seq<CompleteFrame>, origin: u32)
    requires OrderedFrom(a, origin) && OrderedFrom(b, origin) && multiset(a) == multiset(b)
    ensures a == b
  {
    hide OrderedFrom;
    assert |a| == |multiset(a)| == |multiset(b)| == |b|;
    if a != [] {
      SameHead(a, b, origin);
      SuffixOrdered(a, 1, origin);
      SuffixOrdered(b, 1, origin);
      SameTails(a, b);
      OneOrder(a[1..], b[1..], origin);
    }
  }

  lemma SameTails(a: seq<CompleteFrame>, b: seq<CompleteFrame>)
    requires multiset(a) == multiset(b) && a != [] && b != [] && a[0] == b[0]
    ensures multiset(a[1..]) == multiset(b[1..])
    ensures a[1..] == b[1..] ==> a == b
  {
    assert a == [a[0]] + a[1..] && b == [b[0]] + b[1..];
    assert multiset(a[1..]) == multiset(a) - multiset{a[0]};
    assert multiset(b[1..]) == multiset(b) - multiset{b[0]};
  }

  lemma SameHead(a: seq<CompleteFrame>, b: seq<CompleteFrame>, origin: u32)
    requires OrderedFrom(a, origin) && OrderedFrom(b, origin) && multiset(a) == multiset(b) && a != [] && b != []
    ensures a[0] == b[0]
  {
    hide OrderedFrom;
    assert a[0] in multiset(b) && b[0] in multiset(a);
    var j :| 0 <= j < |b| && b[j] == a[0];
    var i :| 0 <= i < |a| && a[i] == b[0];
    HeadIsLeast(a, i, origin);
    HeadIsLeast(b, j, origin);
  }

  lemma HeadIsLeast(a: seq<CompleteFrame>, i: nat, origin: u32)
    requires OrderedFrom(a, origin) && i < |a|
    ensures Sub32(a[0].frameNumber, origin) <= Sub32(a[i].frameNumber, origin)
    ensures Sub32(a[0].frameNumber, origin) == Sub32(a[i].frameNumber, origin) ==> a[i] == a[0]
  {
  }

  /** Frames that follow `last` and each other. */
  predicate InARow(fs: seq<CompleteFrame>, last: u32) {
    && (fs != [] ==> fs[0].frameNumber == Next32(last))
    && forall i :: 0 < i < |fs| ==> fs[i].frameNumber == Next32(fs[i - 1].frameNumber)
  }

  lemma NextDistance(n: u32, last: u32)
    ensures Sub32(n, last) < 0xFFFF_FFFF ==> Sub32(Next32(n), last) == Sub32(n, last) + 1
    ensures Sub32(last, last) == 0
  {
  }

  lemma {:induction false} RowDistance(fs: seq<CompleteFrame>, last: u32, i: nat)
    requires InARow(fs, last) && i < |fs| < HALF32
    ensures Sub32(fs[i].frameNumber, last) == i + 1
  {
    if i > 0 {
      RowDistance(fs, last, i - 1);
      NextDistance(fs[i - 1].frameNumber, last);
    } else {
      NextDistance(last, last);
    }
  }

  lemma RowOrdered(fs: seq<CompleteFrame>, last: u32)
    requires InARow(fs, last) && |fs| < HALF32 - 1
    ensures OrderedFrom(fs, last) && Ahead(fs, last)
  {
    forall i | 0 <= i < |fs| ensures Sub32(fs[i].frameNumber, last) == i + 1 { RowDistance(fs, last, i); }
  }

  lemma ArrivedAhead(arrived: seq<CompleteFrame>, fs: seq<CompleteFrame>, last: u32)
    requires multiset(arrived) == multiset(fs) && Ahead(fs, last)
    ensures Ahead(arrived, last)
  {
    forall i | 0 <= i < |arrived| ensures 0 < Sub32(arrived[i].frameNumber, last) < HALF32 {
      assert arrived[i] in multiset(fs);
    }
    forall i, j | 0 <= i < j < |arrived| ensures arrived[i].frameNumber != arrived[j].frameNumber {
      Twice(arrived, fs, i, j);
    }
  }

  lemma Twice(arrived: seq<CompleteFrame>, fs: seq<CompleteFrame>, i: nat, j: nat)
    requires multiset(arrived) == multiset(fs) && i < j < |arrived|
    requires forall k, m :: 0 <= k < m < |fs| ==> fs[k].frameNumber != fs[m].frameNumber
    ensures arrived[i].frameNumber != arrived[j].frameNumber
  {
    var f, g := arrived[i], arrived[j];
    assert f in multiset(fs) && g in multiset(fs);
    var k :| 0 <= k < |fs| && fs[k] == f;
    var m :| 0 <= m < |fs| && fs[m] == g;
    AtMostOnce(fs, f);
    if f == g { TwoPlaces(arrived, i, j); }
  }

  lemma {:induction false} AtMostOnce(fs: seq<CompleteFrame>, f: CompleteFrame)
    requires forall k, m :: 0 <= k < m < |fs| ==> fs[k].frameNumber != fs[m].frameNumber
    ensures multiset(fs)[f] <= 1
  {
    if fs != [] {
      var front := fs[..|fs| - 1];
      assert fs == front + [fs[|fs| - 1]];
      AtMostOnce(front, f);
      assert f in multiset(front) ==> exists k :: 0 <= k < |front| && fs[k] == f;
    }
  }

  lemma TwoPlaces(fs: seq<CompleteFrame>, i: nat, j: nat)
    requires i < j < |fs| && fs[i] == fs[j]
    ensures multiset(fs)[fs[i]] >= 2
  {
    var front := fs[..j];
    assert fs == front + ([fs[j]] + fs[j + 1..]);
    assert front[i] in multiset(front);
  }

  /** Frames in a row, arriving in any order whatever, are queued in their own. */
  lemma ShuffledQueue(s: State, fs: seq<CompleteFrame>, arrived: seq<CompleteFrame>, at: seq<nat>, last: u32)
    requires s.frames == [] && s.lastPopped == Some(last) && |arrived| == |at|
    requires InARow(fs, last) && |fs| < HALF32 - 1 && multiset(arrived) == multiset(fs)
    ensures Pushed(s, arrived, at).frames == fs
  {
    RowOrdered(fs, last);
    ArrivedAhead(arrived, fs, last);
    AllJoin(s, arrived, at, last);
    OneOrder(Pushed(s, arrived, at).frames, fs, last);
  }

  /** Up to 30 deltas in a row, mid-stream in game mode: in whatever order they arrive and
      whenever they are asked for, they come out in their own, each once, none dropped. */
  lemma ShuffledPlaysOut(s: State, fs: seq<CompleteFrame>, arrived: seq<CompleteFrame>, at: seq<nat>, popAt: seq<nat>,
                         last: u32)
    requires s.mode.Game? && s.frames == [] && s.lastPopped == Some(last) && !s.needKeyframe
    requires InARow(fs, last) && NoKeyframe(fs) && |fs| == |popAt| <= 30
    requires |arrived| == |at| && multiset(arrived) == multiset(fs)
    ensures var s1 := Pushed(s, arrived, at);
      Anchored(s1) && Pops(s1, popAt).1 == fs && Pops(s1, popAt).0.dropped == s.dropped
  {
    hide AfterPush, AfterPop;
    RowOrdered(fs, last);
    ArrivedAhead(arrived, fs, last);
    AllJoin(s, arrived, at, last);
    ShuffledQueue(s, fs, arrived, at, last);
    GamePlaysOut(Pushed(s, arrived, at), popAt);
  }

  /** In quality mode as well, however many there are, when each is asked for at its
      time. */
  lemma ShuffledPlaysOnTime(s: State, fs: seq<CompleteFrame>, arrived: seq<CompleteFrame>, at: seq<nat>,
                            popAt: seq<nat>, last: u32)
    requires s.mode.Quality? && s.frames == [] && s.lastPopped == Some(last) && !s.needKeyframe && s.baseUs.Some?
    requires InARow(fs, last) && |fs| == |popAt| < HALF32 - 1
    requires |arrived| == |at| && multiset(arrived) == multiset(fs)
    requires forall i :: 0 <= i < |fs| ==>
               s.baseUs.value + fs[i].timestampUs <= popAt[i] <= s.baseUs.value + fs[i].timestampUs + s.intervalUs
    ensures var s1 := Pushed(s, arrived, at);
      Anchored(s1) && Pops(s1, popAt).1 == fs && Pops(s1, popAt).0.dropped == s.dropped
  {
    hide AfterPush, AfterPop;
    RowOrdered(fs, last);
    ArrivedAhead(arrived, fs, last);
    AllJoin(s, arrived, at, last);
    ShuffledQueue(s, fs, arrived, at, last);
    QualityPlaysOut(Pushed(s, arrived, at), popAt);
  }
}
