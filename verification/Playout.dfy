/** What a pop hands out, in terms of the queue alone, and that an unhurried stream
    comes through the jitter buffer whole, in both modes. */
module Playout {
  import opened Common
  import opened Frames
  import opened Jitter
  import opened JitterRuns

  predicate NoKeyframe(frames: seq<CompleteFrame>) { forall i :: 0 <= i < |frames| ==> !frames[i].keyframe }

  /** The head may follow what went out last. */
  predicate HeadFollows(s: State)
    requires s.frames != []
  {
    s.lastPopped.None? || s.frames[0].keyframe || s.frames[0].frameNumber == Next32(s.lastPopped.value)
  }

  /** Only the newest 120 are kept waiting. */
  function Newest120(frames: seq<CompleteFrame>): seq<CompleteFrame> {
    if |frames| <= 120 then frames else frames[|frames| - 120..]
  }

  /** The head goes out and the rest moves up; nothing is dropped. */
  predicate HandsOutHead(s: State, s': State, r: Option<CompleteFrame>)
    requires s.frames != []
  {
    && r == Some(s.frames[0]) && s'.frames == s.frames[1..] && s'.dropped == s.dropped
    && s'.lastPopped == Some(s.frames[0].frameNumber) && !s'.needKeyframe && s'.baseUs == s.baseUs && s'.mode == s.mode
    && s'.intervalUs == s.intervalUs
  }

  /** The queue goes, counted, and a keyframe has to come first. */
  predicate GivenUp(s: State, s': State, r: Option<CompleteFrame>) {
    r == None && s'.frames == [] && s'.dropped == s.dropped + |s.frames| && s'.needKeyframe
  }

  /** Nothing goes out; what waits beyond 120 frames is dropped from the front. */
  predicate Waits(s: State, s': State, r: Option<CompleteFrame>) {
    && r == None && s'.frames == Newest120(s.frames) && s'.dropped == s.dropped + |s.frames| - |s'.frames|
    && s'.needKeyframe == s.needKeyframe && s'.lastPopped == s.lastPopped
  }

  lemma NoneNewest(frames: seq<CompleteFrame>)
    ensures NewestKeyframe(frames, |frames|).None? <==> NoKeyframe(frames)
  {
    NewestKeyframeIs(frames, |frames|);
  }

  /** In game mode, mid-stream, with no keyframe queued and the head following what went
      out last: up to 30 queued frames play out from the head; beyond that the GOP is
      given up. */
  lemma GameExactly(s: State, nowUs: nat)
    requires Anchored(s) && s.mode.Game? && s.frames != [] && !s.needKeyframe && NoKeyframe(s.frames) && HeadFollows(s)
    ensures var (s', r) := AfterPop(s, nowUs);
      if |s.frames| <= 30 then HandsOutHead(s, s', r) else GivenUp(s, s', r)
  {
    NoneNewest(s.frames);
  }

  /** How long the gap at the head has been waited for. */
  function Waited(s: State, nowUs: nat): nat { if s.gapSince.Some? then SatSub(nowUs, s.gapSince.value) else 0 }

  /** In either mode, with a hole before the head and no keyframe to go on from: the wait
      begins, or goes on for up to 150 ms, and after that the GOP is given up. */
  lemma GapExactly(s: State, nowUs: nat)
    requires Anchored(s) && s.frames != [] && !s.needKeyframe && NoKeyframe(s.frames) && !HeadFollows(s)
    ensures var (s', r) := AfterPop(s, nowUs);
      if Waited(s, nowUs) > 150_000 then GivenUp(s, s', r)
      else Waits(s, s', r) && s'.gapSince == Some(if s.gapSince.Some? then s.gapSince.value else nowUs)
  {
    NoneNewest(s.frames);
  }

  /** While a keyframe is needed and none is queued, nothing goes out. */
  lemma NeedExactly(s: State, nowUs: nat)
    requires Anchored(s) && s.frames != [] && s.needKeyframe && NoKeyframe(s.frames)
    ensures var (s', r) := AfterPop(s, nowUs); Waits(s, s', r)
  {
    NoneNewest(s.frames);
  }

  /** Where a keyframe is needed or a hole has to be got over, the newest one queued goes
      out at once, in either mode. */
  lemma KeyframeExactly(s: State, nowUs: nat, k: nat)
    requires Anchored(s) && s.frames != [] && IsNewest(s.frames, k) && (s.needKeyframe || !HeadFollows(s))
    ensures var (s', r) := AfterPop(s, nowUs);
      && r == Some(s.frames[k]) && s'.frames == s.frames[k + 1..] && s'.dropped == s.dropped + k && !s'.needKeyframe
  {
    NewestKeyframeIs(s.frames, |s.frames|);
    var j := NewestKeyframe(s.frames, |s.frames|);
    assert !(j.value < k) && !(k < j.value);
  }

  /** In quality mode, mid-stream: before its time nothing happens, and within one frame of
      its time the head goes out. */
  lemma QualityExactly(s: State, nowUs: nat)
    requires Anchored(s) && s.mode.Quality? && s.frames != [] && !s.needKeyframe && HeadFollows(s)
    ensures nowUs < DueAt(s, 0) ==> AfterPop(s, nowUs) == (s, None)
    ensures DueAt(s, 0) <= nowUs <= DueAt(s, 0) + s.intervalUs ==>
      HandsOutHead(s, AfterPop(s, nowUs).0, AfterPop(s, nowUs).1)
  {
  }

  // ---- a queue played out -----------------------------------------------

  /** Each follows the one before it, the first what went out last. */
  predicate Follow(s: State) {
    && (s.frames != [] && s.lastPopped.Some? ==> s.frames[0].frameNumber == Next32(s.lastPopped.value))
    && forall i :: 0 < i < |s.frames| ==> s.frames[i].frameNumber == Next32(s.frames[i - 1].frameNumber)
  }

  /** Pops at these times, and what they hand out. */
  function Pops(s: State, at: seq<nat>): (State, seq<CompleteFrame>)
    requires Anchored(s)
    decreases |at|
  {
    if at == [] then (s, [])
    else
      PopShape(s, at[0]);
      var (s1, r) := AfterPop(s, at[0]);
      var (s2, out) := Pops(s1, at[1..]);
      (s2, (if r.Some? then [r.value] else []) + out)
  }

  /** Up to 30 deltas in a row play out in game mode whenever they are asked for. */
  lemma {:induction false} GamePlaysOut(s: State, at: seq<nat>)
    requires Anchored(s) && s.mode.Game? && !s.needKeyframe && NoKeyframe(s.frames) && Follow(s)
    requires |s.frames| == |at| <= 30
    ensures var (s', out) := Pops(s, at); out == s.frames && s'.frames == [] && s'.dropped == s.dropped
    decreases |at|
  {
    hide AfterPop;
    if at != [] {
      GameExactly(s, at[0]);
      PopShape(s, at[0]);
      GamePlaysOut(AfterPop(s, at[0]).0, at[1..]);
      assert s.frames == [s.frames[0]] + s.frames[1..];
    }
  }

  /** Frames in a row play out in quality mode when each is asked for at its time, or up
      to one frame later. */
  lemma {:induction false} QualityPlaysOut(s: State, at: seq<nat>)
    requires Anchored(s) && s.mode.Quality? && !s.needKeyframe && Follow(s) && |s.frames| == |at|
    requires forall i :: 0 <= i < |at| ==> DueAt(s, i) <= at[i] <= DueAt(s, i) + s.intervalUs
    ensures var (s', out) := Pops(s, at); out == s.frames && s'.frames == [] && s'.dropped == s.dropped
    decreases |at|
  {
    hide AfterPop;
    if at != [] {
      QualityExactly(s, at[0]);
      PopShape(s, at[0]);
      var s1 := AfterPop(s, at[0]).0;
      forall i | 0 <= i < |at[1..]| ensures DueAt(s1, i) <= at[1..][i] <= DueAt(s1, i) + s1.intervalUs {
        assert DueAt(s1, i) == DueAt(s, i + 1);
      }
      QualityPlaysOut(s1, at[1..]);
      assert s.frames == [s.frames[0]] + s.frames[1..];
    }
  }

  // ---- pushed and popped in turn ----------------------------------------

  /** A keyframe, and frames that follow one another. */
  predicate InSequence(fs: seq<CompleteFrame>) {
    && (fs != [] ==> fs[0].keyframe)
    && forall i :: 0 < i < |fs| ==> fs[i].frameNumber == Next32(fs[i - 1].frameNumber)
  }

  /** Each frame pushed and then asked for. */
  function Turns(fs: seq<CompleteFrame>, pushAt: seq<nat>, popAt: seq<nat>): seq<Op>
    requires |fs| == |pushAt| == |popAt|
  {
    if fs == [] then []
    else
      var k := |fs| - 1;
      Turns(fs[..k], pushAt[..k], popAt[..k]) + [Push(fs[k], pushAt[k])] + [Pop(popAt[k])]
  }

  function Outs(fs: seq<CompleteFrame>): seq<Event> { seq(|fs|, i requires 0 <= i < |fs| => Out(fs[i])) }

  /** All of it came out, in order, and nothing was lost or given up on the way. */
  predicate CameThrough(l: Log, fs: seq<CompleteFrame>) {
    && Anchored(l.s) && l.popped == fs && l.trace == Outs(fs) && l.s.frames == [] && l.s.dropped == 0 && l.ignored == 0
    && (if fs == [] then l.s.lastPopped.None? && l.s.needKeyframe
        else l.s.lastPopped == Some(fs[|fs| - 1].frameNumber) && !l.s.needKeyframe)
  }

  lemma NextIsNewer(n: u32)
    ensures FrameNewerOrEq(Next32(n), n) && Next32(n) != n
  {
  }

  /** A frame that follows what went out last, pushed into an empty buffer. */
  lemma PushedAlone(s: State, f: CompleteFrame, nowUs: nat)
    requires s.frames == [] && (s.lastPopped.Some? ==> f.frameNumber == Next32(s.lastPopped.value))
    ensures var s1 := AfterPush(s, f, nowUs);
      && s1 == s.(frames := [f], baseUs := s1.baseUs) && !Late(s, f.frameNumber) && !Duplicate(s, f.frameNumber)
      && s1.baseUs == if s.baseUs.Some? then s.baseUs else Some(nowUs + 150_000 - f.timestampUs)
  {
    if s.lastPopped.Some? { NextIsNewer(s.lastPopped.value); }
    assert Splice(s.frames, 0, f) == [f];
  }

  /** And popped when it is due. */
  lemma PoppedAlone(s: State, f: CompleteFrame, nowUs: nat)
    requires Anchored(s) && s.frames == [f] && (s.needKeyframe ==> f.keyframe) && HeadFollows(s)
    requires s.mode.Quality? && !s.needKeyframe ==> DueAt(s, 0) <= nowUs
    ensures HandsOutHead(s, AfterPop(s, nowUs).0, AfterPop(s, nowUs).1)
  {
    assert NewestKeyframe(s.frames, 0) == None;
    NewestKeyframeIs(s.frames, 1);
  }

  lemma OneTurn(l: Log, fs: seq<CompleteFrame>, f: CompleteFrame, pushAt: nat, popAt: nat)
    requires CameThrough(l, fs) && InSequence(fs + [f])
    requires l.s.mode.Quality? && fs != [] ==> l.s.baseUs.Some? && f.timestampUs + l.s.baseUs.value <= popAt
    ensures var l1 := Step(l, Push(f, pushAt));
      Anchored(l1.s) && CameThrough(Step(l1, Pop(popAt)), fs + [f]) && Step(l1, Pop(popAt)).s.mode == l.s.mode
      && l1.s.baseUs == (if l.s.baseUs.Some? then l.s.baseUs else Some(pushAt + 150_000 - f.timestampUs))
      && Step(l1, Pop(popAt)).s.baseUs == l1.s.baseUs
  {
    hide AfterPush, AfterPop;
    assert fs != [] ==> (fs + [f])[|fs|].frameNumber == Next32((fs + [f])[|fs| - 1].frameNumber);
    assert fs == [] ==> (fs + [f])[0].keyframe;
    PushedAlone(l.s, f, pushAt);
    var l1 := Step(l, Push(f, pushAt));
    PoppedAlone(l1.s, f, popAt);
    PopShape(l1.s, popAt);
    assert Outs(fs) + [Out(f)] == Outs(fs + [f]);
  }

  lemma TwoSteps(l: Log, ops: seq<Op>, a: Op, b: Op)
    requires Anchored(l.s)
    ensures Run(l, ops + [a] + [b]) == Step(Run(l, ops + [a]), b) && Run(l, ops + [a]) == Step(Run(l, ops), a)
  {
    hide Step;
    RunSnoc(l, ops, a);
    RunSnoc(l, ops + [a], b);
  }

  lemma SequencePrefix(fs: seq<CompleteFrame>)
    requires InSequence(fs) && fs != []
    ensures InSequence(fs[..|fs| - 1]) && fs[..|fs| - 1] + [fs[|fs| - 1]] == fs
  {
  }

  /** Frames in sequence, each pushed and then asked for, whenever that is: in game mode
      every one comes out, in order, with nothing dropped and no keyframe asked for. */
  lemma {:induction false} GameComesThrough(intervalUs: nat, fs: seq<CompleteFrame>, pushAt: seq<nat>, popAt: seq<nat>)
    requires InSequence(fs) && |fs| == |pushAt| == |popAt|
    ensures var l := Run(Start(Game, intervalUs), Turns(fs, pushAt, popAt));
      CameThrough(l, fs) && l.s.mode.Game?
    decreases |fs|
  {
    hide Step, CameThrough;
    var start := Start(Game, intervalUs);
    if fs == [] {
      StartsThrough(Game, intervalUs);
    } else {
      var k := |fs| - 1;
      SequencePrefix(fs);
      GameComesThrough(intervalUs, fs[..k], pushAt[..k], popAt[..k]);
      var ops := Turns(fs[..k], pushAt[..k], popAt[..k]);
      OneTurn(Run(start, ops), fs[..k], fs[k], pushAt[k], popAt[k]);
      TwoSteps(start, ops, Push(fs[k], pushAt[k]), Pop(popAt[k]));
    }
  }

  lemma StartsThrough(mode: Mode, intervalUs: nat)
    ensures var l := Run(Start(mode, intervalUs), []); CameThrough(l, []) && l.s.mode == mode && l.s.baseUs.None?
  {
  }

  /** When a frame is to be shown: 150 ms after the first one arrived, and as much later as
      its timestamp is. */
  function ShowAt(fs: seq<CompleteFrame>, pushAt: seq<nat>, i: nat): int
    requires i < |fs| == |pushAt|
  {
    pushAt[0] + 150_000 + (fs[i].timestampUs - fs[0].timestampUs)
  }

  /** Each is asked for no sooner than it is to be shown. */
  predicate InTime(fs: seq<CompleteFrame>, pushAt: seq<nat>, popAt: seq<nat>)
    requires |fs| == |pushAt| == |popAt|
  {
    forall i :: 0 < i < |fs| ==> ShowAt(fs, pushAt, i) <= popAt[i]
  }

  lemma InTimePrefix(fs: seq<CompleteFrame>, pushAt: seq<nat>, popAt: seq<nat>)
    requires |fs| == |pushAt| == |popAt| && fs != []
    requires forall i :: 0 < i < |fs| - 1 ==> ShowAt(fs, pushAt, i) <= popAt[i]
    ensures InTime(fs[..|fs| - 1], pushAt[..|fs| - 1], popAt[..|fs| - 1])
  {
    var k := |fs| - 1;
    forall i | 0 < i < k ensures ShowAt(fs[..k], pushAt[..k], i) <= popAt[..k][i] {
      assert ShowAt(fs, pushAt, i) <= popAt[i];
    }
  }

  lemma LastInTime(fs: seq<CompleteFrame>, pushAt: seq<nat>, popAt: seq<nat>)
    requires |fs| == |pushAt| == |popAt| && |fs| > 1 && InTime(fs, pushAt, popAt)
    ensures ShowAt(fs, pushAt, |fs| - 1) <= popAt[|fs| - 1]
  {
  }

  lemma NextInTime(l: Log, ops: seq<Op>, fs: seq<CompleteFrame>, pushAt: seq<nat>, popAt: seq<nat>)
    requires InSequence(fs) && |fs| == |pushAt| == |popAt| && fs != []
    requires CameThrough(l, fs[..|fs| - 1]) && l.s.mode.Quality?
    requires l.s.baseUs == if |fs| == 1 then None else Some(pushAt[0] + 150_000 - fs[0].timestampUs)
    requires |fs| > 1 ==> ShowAt(fs, pushAt, |fs| - 1) <= popAt[|fs| - 1]
    ensures var k := |fs| - 1;
      var l1 := Step(l, Push(fs[k], pushAt[k]));
      var l2 := Step(l1, Pop(popAt[k]));
      && CameThrough(l2, fs) && l2.s.mode.Quality?
      && l2.s.baseUs == Some(pushAt[0] + 150_000 - fs[0].timestampUs)
  {
    hide Step, CameThrough;
    var k := |fs| - 1;
    SequencePrefix(fs);
    OneTurn(l, fs[..k], fs[k], pushAt[k], popAt[k]);
  }

  /** In quality mode too, as long as each is asked for in time. */
  lemma {:induction false} QualityComesThrough(intervalUs: nat, fs: seq<CompleteFrame>, pushAt: seq<nat>,
                                                popAt: seq<nat>)
    requires InSequence(fs) && |fs| == |pushAt| == |popAt|
    requires InTime(fs, pushAt, popAt)
    ensures var l := Run(Start(Quality, intervalUs), Turns(fs, pushAt, popAt));
      && CameThrough(l, fs) && l.s.mode.Quality?
      && l.s.baseUs == if fs == [] then None else Some(pushAt[0] + 150_000 - fs[0].timestampUs)
    decreases |fs|
  {
    hide Step, CameThrough, InSequence, Outs;
    var start := Start(Quality, intervalUs);
    if fs == [] {
      StartsThrough(Quality, intervalUs);
    } else {
      var k := |fs| - 1;
      SequencePrefix(fs);
      InTimePrefix(fs, pushAt, popAt);
      QualityComesThrough(intervalUs, fs[..k], pushAt[..k], popAt[..k]);
      var ops := Turns(fs[..k], pushAt[..k], popAt[..k]);
      if k > 0 { LastInTime(fs, pushAt, popAt); }
      NextInTime(Run(start, ops), ops, fs, pushAt, popAt);
      TwoSteps(start, ops, Push(fs[k], pushAt[k]), Pop(popAt[k]));
    }
  }

  /** Asked for sooner, it stays. */
  lemma QualityHoldsBack(intervalUs: nat, fs: seq<CompleteFrame>, pushAt: seq<nat>, popAt: seq<nat>, early: nat)
    requires InSequence(fs) && |fs| == |pushAt| == |popAt| && |fs| > 1
    requires forall i :: 0 < i < |fs| - 1 ==> ShowAt(fs, pushAt, i) <= popAt[i]
    requires early < ShowAt(fs, pushAt, |fs| - 1)
    ensures var k := |fs| - 1;
      var l := Run(Start(Quality, intervalUs), Turns(fs[..k], pushAt[..k], popAt[..k]) + [Push(fs[k], pushAt[k])]);
      l.s.frames == [fs[k]] && AfterPop(l.s, early) == (l.s, None)
  {
    hide Step, AfterPush, AfterPop;
    var k := |fs| - 1;
    SequencePrefix(fs);
    InTimePrefix(fs, pushAt, popAt);
    QualityComesThrough(intervalUs, fs[..k], pushAt[..k], popAt[..k]);
    var ops := Turns(fs[..k], pushAt[..k], popAt[..k]);
    var l := Run(Start(Quality, intervalUs), ops);
    RunSnoc(Start(Quality, intervalUs), ops, Push(fs[k], pushAt[k]));
    PushedAlone(l.s, fs[k], pushAt[k]);
    PushStep(l, fs[k], pushAt[k]);
    QualityExactly(AfterPush(l.s, fs[k], pushAt[k]), early);
  }

  lemma PushStep(l: Log, f: CompleteFrame, nowUs: nat)
    requires Anchored(l.s)
    ensures Step(l, Push(f, nowUs)).s == AfterPush(l.s, f, nowUs)
  {
  }
}
