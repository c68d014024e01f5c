/** The jitter buffer: which reassembled frames the decoder may see, and when. */
module Jitter {
  import opened Common
  import opened Frames

  const QUALITY_DELAY_US: nat := 150_000
  const GAME_MAX_DEPTH: nat := 30
  const QUALITY_MAX_LATE_US: nat := 500_000
  const GAP_WAIT_US: nat := 150_000
  const WAIT_MAX_DEPTH: nat := 120

  /** The value of a jitter buffer between two calls. */
  datatype State = State(
    mode: Mode,
    intervalUs: nat,
    frames: seq<CompleteFrame>,
    lastPopped: Option<u32>,
    baseUs: Option<int>,
    dropped: nat,
    needKeyframe: bool,
    gapSince: Option<nat>)

  function Fresh(mode: Mode, intervalUs: nat): State {
    State(mode, intervalUs, [], None, None, 0, true, None)
  }

  /** The playout clock is set whenever something is queued. */
  predicate Anchored(s: State) { s.frames != [] ==> s.baseUs.Some? }

  // ---- push -------------------------------------------------------------

  predicate Late(s: State, n: u32) {
    s.lastPopped.Some? && (!FrameNewerOrEq(n, s.lastPopped.value) || n == s.lastPopped.value)
  }

  /** First position whose frame is at or after `n`, or the end. */
  function Slot(frames: seq<CompleteFrame>, n: u32): (r: nat)
    ensures r <= |frames|
  {
    if frames == [] || FrameNewerOrEq(frames[0].frameNumber, n) then 0 else 1 + Slot(frames[1..], n)
  }

  predicate Duplicate(s: State, n: u32) {
    var i := Slot(s.frames, n);
    i < |s.frames| && s.frames[i].frameNumber == n
  }

  function AfterPush(s: State, f: CompleteFrame, nowUs: nat): State {
    var n := f.frameNumber;
    if Late(s, n) then s.(dropped := s.dropped + 1)
    else
      var base := if s.baseUs.Some? then s.baseUs else Some(nowUs - f.timestampUs + QUALITY_DELAY_US);
      var i := Slot(s.frames, n);
      s.(baseUs := base,
         frames := if Duplicate(s, n) then s.frames else Splice(s.frames, i, f))
  }

  // ---- pop --------------------------------------------------------------

  /** The newest keyframe among the first `k` frames. */
  function NewestKeyframe(frames: seq<CompleteFrame>, k: nat): Option<nat>
    requires k <= |frames|
  {
    if k == 0 then None else if frames[k - 1].keyframe then Some(k - 1) else NewestKeyframe(frames, k - 1)
  }

  lemma {:induction false} NewestKeyframeIs(frames: seq<CompleteFrame>, k: nat)
    requires k <= |frames|
    ensures var r := NewestKeyframe(frames, k);
      && (r.None? ==> forall i :: 0 <= i < k ==> !frames[i].keyframe)
      && (r.Some? ==> r.value < k && frames[r.value].keyframe && forall i :: r.value < i < k ==> !frames[i].keyframe)
  {
    if k > 0 { NewestKeyframeIs(frames, k - 1); }
  }

  function Take(s: State, i: nat): (State, Option<CompleteFrame>)
    requires i < |s.frames|
  {
    (s.(frames := s.frames[i + 1..], dropped := s.dropped + i,
        lastPopped := Some(s.frames[i].frameNumber), gapSince := None),
     Some(s.frames[i]))
  }

  function Trim(s: State): State {
    var excess := SatSub(|s.frames|, WAIT_MAX_DEPTH);
    s.(frames := s.frames[excess..], dropped := s.dropped + excess)
  }

  function GiveUpOnGop(s: State): State {
    s.(frames := [], dropped := s.dropped + |s.frames|, needKeyframe := true)
  }

  /** The head does not follow the last frame out, and is not a keyframe. */
  predicate Gap(s: State)
    requires s.frames != []
  {
    s.lastPopped.Some? && !s.frames[0].keyframe && s.frames[0].frameNumber != Next32(s.lastPopped.value)
  }

  function PopAtGap(s: State, nowUs: nat): (State, Option<CompleteFrame>)
    requires s.frames != []
  {
    NewestKeyframeIs(s.frames, |s.frames|);
    match NewestKeyframe(s.frames, |s.frames|)
    case Some(k) => Take(s, k)
    case None =>
      var since := if s.gapSince.Some? then s.gapSince.value else nowUs;
      var s' := s.(gapSince := Some(since));
      (if SatSub(nowUs, since) > GAP_WAIT_US then GiveUpOnGop(s') else Trim(s'), None)
  }

  function PopGame(s: State): (State, Option<CompleteFrame>)
    requires s.frames != []
  {
    NewestKeyframeIs(s.frames, |s.frames|);
    match NewestKeyframe(s.frames, |s.frames|)
    case Some(k) => Take(s, k)
    case None => if |s.frames| > GAME_MAX_DEPTH then (GiveUpOnGop(s), None) else Take(s, 0)
  }

  function DueAt(s: State, i: nat): int
    requires i < |s.frames| && s.baseUs.Some?
  {
    s.frames[i].timestampUs + s.baseUs.value
  }

  /** The end of the run of due frames that starts at `i`. */
  function LastDue(s: State, i: nat, nowUs: nat): (r: nat)
    requires i < |s.frames| && s.baseUs.Some?
    ensures i <= r < |s.frames|
    decreases |s.frames| - i
  {
    if i + 1 < |s.frames| && DueAt(s, i + 1) <= nowUs then LastDue(s, i + 1, nowUs) else i
  }

  function PopQuality(s: State, nowUs: nat): (State, Option<CompleteFrame>)
    requires s.frames != [] && s.baseUs.Some?
  {
    if DueAt(s, 0) > nowUs then (s, None)
    else
      var lastDue := LastDue(s, 0, nowUs);
      var lateness := nowUs - DueAt(s, 0);
      NewestKeyframeIs(s.frames, lastDue + 1);
      var k := NewestKeyframe(s.frames, lastDue + 1);
      if lastDue > 0 && lateness > s.intervalUs && k.Some? then Take(s, k.value)
      else if lastDue > 0 && lateness > s.intervalUs && lateness > QUALITY_MAX_LATE_US then (GiveUpOnGop(s), None)
      else Take(s, 0)
  }

  function AfterPop(s: State, nowUs: nat): (State, Option<CompleteFrame>)
    requires Anchored(s)
  {
    NewestKeyframeIs(s.frames, |s.frames|);
    if s.frames == [] then (s, None)
    else if s.needKeyframe then
      match NewestKeyframe(s.frames, |s.frames|)
      case Some(i) => Take(s.(needKeyframe := false), i)
      case None => (Trim(s), None)
    else if Gap(s) then PopAtGap(s, nowUs)
    else if s.mode.Game? then PopGame(s)
    else PopQuality(s, nowUs)
  }

  function AfterFlush(s: State): State {
    s.(frames := [], baseUs := None, needKeyframe := true, gapSince := None)
  }

  // ---- the object -------------------------------------------------------

  class JitterBuffer {
    var mode: Mode
    const intervalUs: nat
    var frames: seq<CompleteFrame>
    var lastPopped: Option<u32>
    var baseUs: Option<int>
    var dropped: nat
    var needKeyframe: bool
    var gapSince: Option<nat>

    ghost function Value(): State
      reads this
    {
      State(mode, intervalUs, frames, lastPopped, baseUs, dropped, needKeyframe, gapSince)
    }

    ghost predicate Valid()
      reads this
    {
      Anchored(Value())
    }

    constructor (mode: Mode, frameIntervalUs: nat)
      ensures Valid() && Value() == Fresh(mode, frameIntervalUs)
    {
      this.mode, intervalUs := mode, frameIntervalUs;
      frames, lastPopped, baseUs, dropped := [], None, None, 0;
      needKeyframe, gapSince := true, None;
    }

    method RequireKeyframe()
      requires Valid()
      modifies this
      ensures Valid() && Value() == old(Value()).(needKeyframe := true)
    {
      needKeyframe := true;
    }

    method Flush()
      modifies this
      ensures Valid() && Value() == AfterFlush(old(Value()))
    {
      frames, baseUs, needKeyframe, gapSince := [], None, true, None;
    }

    method SetMode(m: Mode)
      modifies this
      ensures Valid() && Value() == AfterFlush(old(Value()).(mode := m))
    {
      mode := m;
      Flush();
    }

    method Dropped() returns (n: nat)
      requires Valid()
      modifies this
      ensures Valid() && n == old(dropped) && Value() == old(Value()).(dropped := 0)
    {
      n := dropped;
      dropped := 0;
    }

    /** The position search inside `push`. */
    method Locate(n: u32) returns (i: nat)
      ensures i == Slot(frames, n)
    {
      i := 0;
      while i < |frames| && !FrameNewerOrEq(frames[i].frameNumber, n)
        invariant i <= |frames| && i + Slot(frames[i..], n) == Slot(frames, n)
      {
        assert frames[i..][1..] == frames[i + 1..];
        i := i + 1;
      }
    }

    method Push(f: CompleteFrame, nowUs: nat)
      requires Valid()
      modifies this
      ensures Valid() && Value() == AfterPush(old(Value()), f, nowUs)
    {
      if lastPopped.Some? {
        if !FrameNewerOrEq(f.frameNumber, lastPopped.value) || f.frameNumber == lastPopped.value {
          dropped := dropped + 1;
          return;
        }
      }
      if baseUs.None? {
        baseUs := Some(nowUs - f.timestampUs + QUALITY_DELAY_US);
      }
      var i := Locate(f.frameNumber);
      if i < |frames| && frames[i].frameNumber == f.frameNumber {
      } else {
        frames := frames[..i] + [f] + frames[i..];
      }
    }

    /** Searches downward from frame `k - 1`. */
    method FindNewestKeyframe(k: nat) returns (r: Option<nat>)
      requires k <= |frames|
      ensures r == NewestKeyframe(frames, k)
    {
      var i: nat := k;
      while i > 0
        invariant 0 <= i <= k && NewestKeyframe(frames, i) == NewestKeyframe(frames, k)
      {
        i := i - 1;
        if frames[i].keyframe { return Some(i); }
      }
      r := None;
    }

    method GiveUp()
      modifies this
      ensures Value() == GiveUpOnGop(old(Value()))
    {
      dropped := dropped + |frames|;
      frames := [];
      needKeyframe := true;
    }

    method TakeAt(idx: nat) returns (f: CompleteFrame)
      requires Valid() && idx < |frames|
      modifies this
      ensures Valid() && (Value(), Some(f)) == Take(old(Value()), idx)
    {
      for i := 0 to idx
        invariant frames == old(frames)[i..] && dropped == old(dropped) + i
        invariant unchanged(`mode, `lastPopped, `baseUs, `needKeyframe, `gapSince)
      {
        frames := frames[1..];
        dropped := dropped + 1;
      }
      f := frames[0];
      frames := frames[1..];
      lastPopped := Some(f.frameNumber);
      gapSince := None;
    }

    method TrimWaiting()
      requires Valid()
      modifies this
      ensures Valid() && Value() == Trim(old(Value()))
    {
      while |frames| > WAIT_MAX_DEPTH
        invariant |frames| <= |old(frames)| && frames == old(frames)[|old(frames)| - |frames|..]
        invariant |old(frames)| > WAIT_MAX_DEPTH ==> |frames| >= WAIT_MAX_DEPTH
        invariant |old(frames)| <= WAIT_MAX_DEPTH ==> |frames| == |old(frames)|
        invariant dropped == old(dropped) + (|old(frames)| - |frames|)
        invariant unchanged(`mode, `lastPopped, `baseUs, `needKeyframe, `gapSince)
        decreases |frames|
      {
        frames := frames[1..];
        dropped := dropped + 1;
      }
    }

    method Pop(nowUs: nat) returns (r: Option<CompleteFrame>)
      requires Valid()
      modifies this
      ensures Valid()
      ensures (Value(), r) == AfterPop(old(Value()), nowUs)
    {
      if frames == [] { return None; }
      var newest := FindNewestKeyframe(|frames|);
      NewestKeyframeIs(frames, |frames|);
      if needKeyframe {
        if newest.Some? {
          needKeyframe := false;
          var f := TakeAt(newest.value);
          return Some(f);
        }
        TrimWaiting();
        return None;
      }
      if lastPopped.Some? {
        var head := frames[0];
        if !head.keyframe && head.frameNumber != Next32(lastPopped.value) {
          if newest.Some? {
            var f := TakeAt(newest.value);
            return Some(f);
          }
          if gapSince.None? { gapSince := Some(nowUs); }
          if SatSub(nowUs, gapSince.value) > GAP_WAIT_US {
            GiveUp();
          } else {
            TrimWaiting();
          }
          return None;
        }
      }
      match mode {
        case Game =>
          if newest.Some? {
            var f := TakeAt(newest.value);
            return Some(f);
          }
          if |frames| > GAME_MAX_DEPTH {
            GiveUp();
            return None;
          }
          var f := TakeAt(0);
          return Some(f);
        case Quality =>
          r := PopScheduled(nowUs);
      }
    }

    /** The quality branch of `pop`. */
    method PopScheduled(nowUs: nat) returns (r: Option<CompleteFrame>)
      requires Valid() && frames != []
      modifies this
      ensures Valid()
      ensures (Value(), r) == PopQuality(old(Value()), nowUs)
    {
      var base := baseUs.value;
      if frames[0].timestampUs + base > nowUs { return None; }
      var lastDue := 0;
      while lastDue + 1 < |frames| && frames[lastDue + 1].timestampUs + base <= nowUs
        invariant lastDue < |frames| && Value() == old(Value())
        invariant LastDue(Value(), lastDue, nowUs) == LastDue(Value(), 0, nowUs)
      {
        lastDue := lastDue + 1;
      }
      var lateness := nowUs - (frames[0].timestampUs + base);
      if lastDue > 0 && lateness > intervalUs {
        var k := FindNewestKeyframe(lastDue + 1);
        NewestKeyframeIs(frames, lastDue + 1);
        if k.Some? {
          var f := TakeAt(k.value);
          return Some(f);
        }
        if lateness > QUALITY_MAX_LATE_US {
          GiveUp();
          return None;
        }
      }
      var f := TakeAt(0);
      r := Some(f);
    }
  }

  // ---- one step ---------------------------------------------------------

  /** Everything a pop can do: hand out one frame and drop those before it, or
      drop a prefix and hand out nothing. Nothing else leaves the queue, and what
      leaves is counted. */
  predicate TookPrefix(s: State, s': State, r: Option<CompleteFrame>) {
    && Anchored(s')
    && |s'.frames| <= |s.frames| && s'.frames == s.frames[|s.frames| - |s'.frames|..]
    && |s.frames| == |s'.frames| + (s'.dropped - s.dropped) + (if r.Some? then 1 else 0)
    && (r.Some? ==> |s'.frames| < |s.frames| && r.value == s.frames[|s.frames| - |s'.frames| - 1]
                    && !s'.needKeyframe && s'.lastPopped == Some(r.value.frameNumber))
    && (r.None? ==> s'.lastPopped == s.lastPopped && (s.needKeyframe ==> s'.needKeyframe))
  }

  lemma TakeShape(s: State, i: nat)
    requires Anchored(s) && i < |s.frames| && !s.needKeyframe
    ensures TookPrefix(s, Take(s, i).0, Take(s, i).1)
  {
  }

  lemma TrimShape(s: State)
    requires Anchored(s)
    ensures TookPrefix(s, Trim(s), None)
  {
  }

  lemma GiveUpShape(s: State)
    requires Anchored(s)
    ensures TookPrefix(s, GiveUpOnGop(s), None)
  {
  }

  lemma TookAnyway(s: State, s': State, gapSince: Option<nat>)
    requires TookPrefix(s.(gapSince := gapSince), s', None)
    ensures TookPrefix(s, s', None)
  {
  }

  lemma PopAtGapShape(s: State, nowUs: nat)
    requires Anchored(s) && s.frames != [] && !s.needKeyframe
    ensures TookPrefix(s, PopAtGap(s, nowUs).0, PopAtGap(s, nowUs).1)
  {
    hide TookPrefix, Trim, GiveUpOnGop, Take;
    NewestKeyframeIs(s.frames, |s.frames|);
    var k := NewestKeyframe(s.frames, |s.frames|);
    if k.Some? {
      TakeShape(s, k.value);
    } else {
      var waiting := s.(gapSince := Some(if s.gapSince.Some? then s.gapSince.value else nowUs));
      TrimShape(waiting);
      GiveUpShape(waiting);
      TookAnyway(s, Trim(waiting), waiting.gapSince);
      TookAnyway(s, GiveUpOnGop(waiting), waiting.gapSince);
    }
  }

  lemma PopGameShape(s: State)
    requires Anchored(s) && s.frames != [] && !s.needKeyframe
    ensures TookPrefix(s, PopGame(s).0, PopGame(s).1)
  {
    NewestKeyframeIs(s.frames, |s.frames|);
    var k := NewestKeyframe(s.frames, |s.frames|);
    if k.Some? { TakeShape(s, k.value); } else { TakeShape(s, 0); GiveUpShape(s); }
  }

  lemma NotDueShape(s: State)
    requires Anchored(s)
    ensures TookPrefix(s, s, None)
  {
  }

  lemma PopQualityShape(s: State, nowUs: nat)
    requires Anchored(s) && s.frames != [] && !s.needKeyframe
    ensures TookPrefix(s, PopQuality(s, nowUs).0, PopQuality(s, nowUs).1)
  {
    hide TookPrefix, GiveUpOnGop, Take;
    NewestKeyframeIs(s.frames, LastDue(s, 0, nowUs) + 1);
    var k := NewestKeyframe(s.frames, LastDue(s, 0, nowUs) + 1);
    if k.Some? { TakeShape(s, k.value); }
    NotDueShape(s);
    TakeShape(s, 0);
    GiveUpShape(s);
  }

  lemma PopKeyframeShape(s: State)
    requires Anchored(s) && s.frames != [] && s.needKeyframe
    ensures var k := NewestKeyframe(s.frames, |s.frames|);
      if k.Some? then
        k.value < |s.frames|
        && var (s', r) := Take(s.(needKeyframe := false), k.value); TookPrefix(s, s', r)
      else TookPrefix(s, Trim(s), None)
  {
    NewestKeyframeIs(s.frames, |s.frames|);
    var k := NewestKeyframe(s.frames, |s.frames|);
    if k.Some? { TakeShape(s.(needKeyframe := false), k.value); } else { TrimShape(s); }
  }

  lemma PopShape(s: State, nowUs: nat)
    requires Anchored(s)
    ensures TookPrefix(s, AfterPop(s, nowUs).0, AfterPop(s, nowUs).1)
  {
    if s.frames == [] {
    } else if s.needKeyframe {
      PopKeyframeShape(s);
    } else if Gap(s) {
      PopAtGapShape(s, nowUs);
    } else if s.mode.Game? {
      PopGameShape(s);
    } else {
      PopQualityShape(s, nowUs);
    }
  }

  /** A delta goes out only directly after the frame it references. */
  lemma PoppedDeltaFollows(s: State, nowUs: nat)
    requires Anchored(s)
    ensures var (s', r) := AfterPop(s, nowUs);
      r.Some? && !r.value.keyframe ==>
        !s.needKeyframe && (s.lastPopped.Some? ==> r.value.frameNumber == Next32(s.lastPopped.value))
  {
    NewestKeyframeIs(s.frames, |s.frames|);
    if s.frames != [] && s.baseUs.Some? { NewestKeyframeIs(s.frames, LastDue(s, 0, nowUs) + 1); }
  }

  /** In game mode a pop hands out the newest keyframe queued and drops what is before
      it; one that hands out nothing found no keyframe, and leaves at most 120 frames. */
  lemma GamePopsNewestKeyframe(s: State, nowUs: nat)
    requires Anchored(s) && s.mode.Game?
    ensures var (s', r) := AfterPop(s, nowUs);
      && (forall k :: IsNewest(s.frames, k) ==> r == Some(s.frames[k]) && s'.frames == s.frames[k + 1..])
      && (r.None? ==> (forall i :: 0 <= i < |s.frames| ==> !s.frames[i].keyframe) && |s'.frames| <= WAIT_MAX_DEPTH)
  {
    NewestKeyframeIs(s.frames, |s.frames|);
    var k := NewestKeyframe(s.frames, |s.frames|);
    forall j | IsNewest(s.frames, j) ensures k == Some(j) {
      if k.Some? { assert !(k.value < j) && !(j < k.value); }
    }
  }

  /** The last keyframe of a queue. */
  predicate IsNewest(frames: seq<CompleteFrame>, k: int) {
    0 <= k < |frames| && frames[k].keyframe && forall i :: k < i < |frames| ==> !frames[i].keyframe
  }

  /** The frames up to `i` are due. */
  predicate DueUpTo(s: State, i: nat, nowUs: nat)
    requires i < |s.frames| && s.baseUs.Some?
  {
    forall j :: 0 <= j <= i ==> DueAt(s, j) <= nowUs
  }

  /** Mid-stream in quality mode: the head is late by more than half a second and by more
      than a frame, the frame behind it is due as well, and no frame of those due in a
      row is a keyframe. */
  predicate GivesUp(s: State, nowUs: nat) {
    && s.mode.Quality? && !s.needKeyframe && |s.frames| > 1 && s.baseUs.Some? && !Gap(s)
    && nowUs > DueAt(s, 0) + Max(QUALITY_MAX_LATE_US, s.intervalUs)
    && DueAt(s, 1) <= nowUs
    && forall i :: 0 <= i < |s.frames| && DueUpTo(s, i, nowUs) ==> !s.frames[i].keyframe
  }

  /** What `LastDue` finds is the end of the frames due in a row. */
  lemma DueRun(s: State, nowUs: nat)
    requires s.frames != [] && s.baseUs.Some? && DueAt(s, 0) <= nowUs
    ensures var r := LastDue(s, 0, nowUs);
      && (r > 0 <==> |s.frames| > 1 && DueAt(s, 1) <= nowUs)
      && forall i :: 0 <= i < |s.frames| ==> (DueUpTo(s, i, nowUs) <==> i <= r)
  {
    LastDueIs(s, 0, nowUs);
  }

  /** Quality mode gives a GOP up, and with it whatever is queued, exactly then. */
  lemma GivesUpExactly(s: State, nowUs: nat)
    requires Anchored(s) && s.mode.Quality? && s.frames != [] && !s.needKeyframe && !Gap(s)
    ensures AfterPop(s, nowUs) == (GiveUpOnGop(s), None) <==> GivesUp(s, nowUs)
  {
    if DueAt(s, 0) <= nowUs {
      var r := LastDue(s, 0, nowUs);
      DueRun(s, nowUs);
      NewestKeyframeIs(s.frames, r + 1);
      forall i | 0 <= i < |s.frames| && DueUpTo(s, i, nowUs) ensures i < r + 1 {}
    }
  }

  /** A keyframe is among what a pop removes only if a keyframe is handed out, or the
      queue is given up. */
  lemma PopSparesKeyframes(s: State, nowUs: nat, i: nat)
    requires Anchored(s) && i < |s.frames| && s.frames[i].keyframe
    ensures var (s', r) := AfterPop(s, nowUs);
      i < |s.frames| - |s'.frames| ==> if r.Some? then r.value.keyframe else GivesUp(s, nowUs)
  {
    NewestKeyframeIs(s.frames, |s.frames|);
    if s.mode.Quality? && !s.needKeyframe && !Gap(s) {
      GivesUpExactly(s, nowUs);
      NewestKeyframeIs(s.frames, LastDue(s, 0, nowUs) + 1);
    }
  }

  lemma {:induction false} LastDueIs(s: State, i: nat, nowUs: nat)
    requires i < |s.frames| && s.baseUs.Some? && DueAt(s, i) <= nowUs
    ensures var r := LastDue(s, i, nowUs);
      && (forall j :: i <= j <= r ==> DueAt(s, j) <= nowUs)
      && (r + 1 < |s.frames| ==> DueAt(s, r + 1) > nowUs)
    decreases |s.frames| - i
  {
    if i + 1 < |s.frames| && DueAt(s, i + 1) <= nowUs { LastDueIs(s, i + 1, nowUs); }
  }

  /** Quality mode keeps the schedule: mid-stream it hands out nothing before its
      time, always hands something out once the head is due, and gives a GOP up
      only when the head is over half a second late. */
  lemma QualityKeepsSchedule(s: State, nowUs: nat)
    requires Anchored(s) && s.mode.Quality? && s.frames != [] && !s.needKeyframe && !Gap(s)
    ensures var (s', r) := AfterPop(s, nowUs);
      && (DueAt(s, 0) > nowUs ==> s' == s && r.None?)
      && (r.Some? ==> r.value.timestampUs + s.baseUs.value <= nowUs)
      && (DueAt(s, 0) <= nowUs <= DueAt(s, 0) + QUALITY_MAX_LATE_US ==> r.Some?)
      && (s'.needKeyframe ==> r.None? && nowUs > DueAt(s, 0) + QUALITY_MAX_LATE_US)
  {
    if DueAt(s, 0) <= nowUs {
      LastDueIs(s, 0, nowUs);
      NewestKeyframeIs(s.frames, LastDue(s, 0, nowUs) + 1);
      var k := NewestKeyframe(s.frames, LastDue(s, 0, nowUs) + 1);
      if k.Some? { assert DueAt(s, k.value) <= nowUs; }
    }
  }
}
