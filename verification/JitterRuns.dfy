/** The jitter buffer over whole runs: what the decoder is shown, in which order,
    and where every pushed frame went. */
module JitterRuns {
  import opened Common
  import opened Frames
  import opened Jitter

  datatype Op =
    | Push(frame: CompleteFrame, nowUs: nat)
    | Pop(nowUs: nat)
    | RequireKeyframe
    | SetMode(mode: Mode)
    | Flush
    | TakeDropped

  /** What the decoder's reference chain goes through: a frame handed out, or the
      chain being given up (a decode error, a flush, an abandoned GOP). */
  datatype Event = Out(frame: CompleteFrame) | Reset

  datatype Log = Log(
    s: State,
    trace: seq<Event>,
    pushed: seq<CompleteFrame>,
    popped: seq<CompleteFrame>,
    taken: nat,      // drops already read by the caller
    ignored: nat,    // duplicates of something queued
    flushed: nat)    // frames discarded by a flush

  function Start(mode: Mode, intervalUs: nat): Log { Log(Fresh(mode, intervalUs), [], [], [], 0, 0, 0) }

  function PopEvents(s: State, s': State, r: Option<CompleteFrame>): seq<Event> {
    if r.Some? then [Out(r.value)] else if s'.needKeyframe && !s.needKeyframe then [Reset] else []
  }

  function Step(l: Log, op: Op): Log
    requires Anchored(l.s)
  {
    match op
    case Push(f, now) =>
      l.(s := AfterPush(l.s, f, now), pushed := l.pushed + [f],
         ignored := l.ignored + if !Late(l.s, f.frameNumber) && Duplicate(l.s, f.frameNumber) then 1 else 0)
    case Pop(now) =>
      var (s', r) := AfterPop(l.s, now);
      l.(s := s', trace := l.trace + PopEvents(l.s, s', r), popped := l.popped + if r.Some? then [r.value] else [])
    case RequireKeyframe => l.(s := l.s.(needKeyframe := true), trace := l.trace + [Reset])
    case SetMode(m) =>
      l.(s := AfterFlush(l.s.(mode := m)), trace := l.trace + [Reset], flushed := l.flushed + |l.s.frames|)
    case Flush => l.(s := AfterFlush(l.s), trace := l.trace + [Reset], flushed := l.flushed + |l.s.frames|)
    case TakeDropped => l.(s := l.s.(dropped := 0), taken := l.taken + l.s.dropped)
  }

  lemma StepAnchored(l: Log, op: Op)
    requires Anchored(l.s)
    ensures Anchored(Step(l, op).s)
  {
    hide AfterPop, PopEvents;
    if op.Pop? { PopShape(l.s, op.nowUs); }
  }

  function Run(l: Log, ops: seq<Op>): (r: Log)
    requires Anchored(l.s)
    ensures Anchored(r.s)
  {
    if ops == [] then l
    else
      var before := Run(l, ops[..|ops| - 1]);
      StepAnchored(before, ops[|ops| - 1]);
      Step(before, ops[|ops| - 1])
  }

  // ---- decodability -----------------------------------------------------

  /** A delta directly follows its reference; hence the first frame, and the first
      after any reset, is a keyframe. */
  predicate Decodable(trace: seq<Event>) {
    forall i :: 0 <= i < |trace| && trace[i].Out? && !trace[i].frame.keyframe ==>
      i > 0 && trace[i - 1].Out? && trace[i].frame.frameNumber == Next32(trace[i - 1].frame.frameNumber)
  }

  /** While no keyframe is needed, the last event is the last frame popped. */
  predicate ChainInv(l: Log) {
    && Anchored(l.s) && Decodable(l.trace)
    && (!l.s.needKeyframe ==>
          l.trace != [] && l.trace[|l.trace| - 1].Out?
          && l.s.lastPopped == Some(l.trace[|l.trace| - 1].frame.frameNumber))
  }

  lemma DecodableSnoc(trace: seq<Event>, e: Event)
    requires Decodable(trace)
    requires e.Out? && !e.frame.keyframe ==>
      trace != [] && trace[|trace| - 1].Out? && e.frame.frameNumber == Next32(trace[|trace| - 1].frame.frameNumber)
    ensures Decodable(trace + [e])
  {
  }

  lemma StepKeepsChain(l: Log, op: Op)
    requires ChainInv(l)
    ensures ChainInv(Step(l, op))
  {
    hide AfterPop, Decodable;
    StepAnchored(l, op);
    if op.Pop? {
      var (s', r) := AfterPop(l.s, op.nowUs);
      PopShape(l.s, op.nowUs);
      PoppedDeltaFollows(l.s, op.nowUs);
      if PopEvents(l.s, s', r) == [] {
        assert l.trace + [] == l.trace;
      } else {
        DecodableSnoc(l.trace, PopEvents(l.s, s', r)[0]);
      }
    } else if !op.Push? && !op.TakeDropped? {
      DecodableSnoc(l.trace, Reset);
    }
  }

  lemma {:induction false} RunKeepsChain(mode: Mode, intervalUs: nat, ops: seq<Op>)
    ensures ChainInv(Run(Start(mode, intervalUs), ops))
  {
    if ops != [] {
      RunKeepsChain(mode, intervalUs, ops[..|ops| - 1]);
      StepKeepsChain(Run(Start(mode, intervalUs), ops[..|ops| - 1]), ops[|ops| - 1]);
    }
  }

  /** From keyframe `k` to frame `i`, nothing is missing and nothing reset. */
  predicate Chain(trace: seq<Event>, k: nat, i: nat) {
    && k <= i < |trace|
    && (forall j :: k <= j <= i ==> trace[j].Out?)
    && trace[k].frame.keyframe
    && forall j :: k < j <= i ==>
         !trace[j].frame.keyframe && trace[j].frame.frameNumber == Next32(trace[j - 1].frame.frameNumber)
  }

  lemma {:induction false} ChainOf(trace: seq<Event>, i: nat) returns (k: nat)
    requires Decodable(trace) && i < |trace| && trace[i].Out?
    ensures Chain(trace, k, i)
  {
    if trace[i].frame.keyframe {
      k := i;
    } else {
      k := ChainOf(trace, i - 1);
    }
  }

  /** Decodability of every run, for any input whatever: each frame handed to the
      decoder is reached from a keyframe by consecutive deltas, with no hole and
      no reset in between. */
  lemma EveryOutputDecodes(mode: Mode, intervalUs: nat, ops: seq<Op>, i: nat)
    requires i < |Run(Start(mode, intervalUs), ops).trace| && Run(Start(mode, intervalUs), ops).trace[i].Out?
    ensures exists k :: Chain(Run(Start(mode, intervalUs), ops).trace, k, i)
  {
    RunKeepsChain(mode, intervalUs, ops);
    var k := ChainOf(Run(Start(mode, intervalUs), ops).trace, i);
  }

  // ---- conservation -----------------------------------------------------

  /** Where every pushed frame went, by count; and everything popped or queued was
      pushed, no more often than it was pushed. */
  predicate Conserved(l: Log) {
    && |l.pushed| == |l.popped| + l.taken + l.s.dropped + |l.s.frames| + l.ignored + l.flushed
    && multiset(l.popped) + multiset(l.s.frames) <= multiset(l.pushed)
  }

  lemma TakenFromQueue(s: State, s': State, r: Option<CompleteFrame>)
    requires TookPrefix(s, s', r)
    ensures multiset(if r.Some? then [r.value] else []) + multiset(s'.frames) <= multiset(s.frames)
  {
    var cut := |s.frames| - |s'.frames|;
    assert s.frames == s.frames[..cut] + s'.frames;
    if r.Some? {
      assert s.frames[..cut] == s.frames[..cut - 1] + [r.value];
    }
  }

  lemma PushAdds(s: State, f: CompleteFrame, nowUs: nat)
    ensures var s' := AfterPush(s, f, nowUs);
      && multiset(s'.frames) <= multiset(s.frames) + multiset{f}
      && s'.dropped + |s'.frames| + (if !Late(s, f.frameNumber) && Duplicate(s, f.frameNumber) then 1 else 0)
           == s.dropped + |s.frames| + 1
  {
    var i := Slot(s.frames, f.frameNumber);
    assert s.frames == s.frames[..i] + s.frames[i..];
  }

  lemma StepConserves(l: Log, op: Op)
    requires Anchored(l.s) && Conserved(l)
    ensures Conserved(Step(l, op))
  {
    match op
    case Push(f, now) => PushConserves(l, f, now);
    case Pop(now) => PopConserves(l, now);
    case _ =>
  }

  lemma PushConserves(l: Log, f: CompleteFrame, now: nat)
    requires Anchored(l.s) && Conserved(l)
    ensures Conserved(Step(l, Push(f, now)))
  {
    hide AfterPush;
    PushAdds(l.s, f, now);
  }

  lemma PopConserves(l: Log, now: nat)
    requires Anchored(l.s) && Conserved(l)
    ensures Conserved(Step(l, Pop(now)))
  {
    hide AfterPop;
    PopShape(l.s, now);
    TakenFromQueue(l.s, AfterPop(l.s, now).0, AfterPop(l.s, now).1);
  }

  /** Over every run, pushes equal pops plus counted drops plus the queue plus
      ignored duplicates plus what a flush discarded. */
  lemma {:induction false} RunConserves(mode: Mode, intervalUs: nat, ops: seq<Op>)
    ensures Conserved(Run(Start(mode, intervalUs), ops))
  {
    if ops != [] {
      RunConserves(mode, intervalUs, ops[..|ops| - 1]);
      StepConserves(Run(Start(mode, intervalUs), ops[..|ops| - 1]), ops[|ops| - 1]);
    }
  }

  // ---- order ------------------------------------------------------------

  /** Strictly ascending distances from `origin`, all in its forward half. */
  predicate OrderedFrom(frames: seq<CompleteFrame>, origin: u32) {
    && (forall i :: 0 <= i < |frames| ==> Sub32(frames[i].frameNumber, origin) < HALF32)
    && forall i, j :: 0 <= i < j < |frames| ==>
         Sub32(frames[i].frameNumber, origin) < Sub32(frames[j].frameNumber, origin)
  }

  /** The queue is strictly ordered, and strictly newer than the last pop. */
  predicate Ordered(s: State, origin: u32) {
    if s.lastPopped.Some? then
      OrderedFrom(s.frames, s.lastPopped.value)
      && forall i :: 0 <= i < |s.frames| ==> s.frames[i].frameNumber != s.lastPopped.value
    else OrderedFrom(s.frames, origin)
  }

  lemma {:induction false} SlotIsFirst(frames: seq<CompleteFrame>, n: u32)
    ensures var i := Slot(frames, n);
      && (forall j :: 0 <= j < i ==> !FrameNewerOrEq(frames[j].frameNumber, n))
      && (i < |frames| ==> FrameNewerOrEq(frames[i].frameNumber, n))
  {
    if frames != [] && !FrameNewerOrEq(frames[0].frameNumber, n) {
      SlotIsFirst(frames[1..], n);
    }
  }

  /** Inserting between smaller and larger keeps the order. */
  lemma InsertBetween(frames: seq<CompleteFrame>, f: CompleteFrame, i: nat, origin: u32)
    requires OrderedFrom(frames, origin) && Sub32(f.frameNumber, origin) < HALF32 && i <= |frames|
    requires forall j :: 0 <= j < i ==> Sub32(frames[j].frameNumber, origin) < Sub32(f.frameNumber, origin)
    requires forall j :: i <= j < |frames| ==> Sub32(f.frameNumber, origin) < Sub32(frames[j].frameNumber, origin)
    ensures OrderedFrom(Splice(frames, i, f), origin)
  {
    SpliceAt(frames, i, f);
  }

  lemma InsertOrdered(frames: seq<CompleteFrame>, f: CompleteFrame, origin: u32)
    requires OrderedFrom(frames, origin) && Sub32(f.frameNumber, origin) < HALF32
    ensures var i := Slot(frames, f.frameNumber);
      (i < |frames| && frames[i].frameNumber == f.frameNumber) || OrderedFrom(Splice(frames, i, f), origin)
  {
    var i := Slot(frames, f.frameNumber);
    SlotIsFirst(frames, f.frameNumber);
    if i == |frames| || frames[i].frameNumber != f.frameNumber {
      forall j | 0 <= j < |frames|
        ensures if j < i then Sub32(frames[j].frameNumber, origin) < Sub32(f.frameNumber, origin)
                else Sub32(f.frameNumber, origin) < Sub32(frames[j].frameNumber, origin)
      {
        NewerByDistance(frames[j].frameNumber, f.frameNumber, origin);
        if i < |frames| { NewerByDistance(frames[i].frameNumber, f.frameNumber, origin); }
      }
      InsertBetween(frames, f, i, origin);
    }
  }

  /** Re-measured from one of its frames, the rest of the queue is still ordered. */
  lemma Rebase(frames: seq<CompleteFrame>, k: nat, origin: u32)
    requires OrderedFrom(frames, origin) && k < |frames|
    ensures OrderedFrom(frames[k + 1..], frames[k].frameNumber)
    ensures forall i :: k < i < |frames| ==> frames[i].frameNumber != frames[k].frameNumber
  {
    forall i | k < i < |frames|
      ensures Sub32(frames[i].frameNumber, frames[k].frameNumber)
           == Sub32(frames[i].frameNumber, origin) - Sub32(frames[k].frameNumber, origin)
    {
      NewerByDistance(frames[i].frameNumber, frames[k].frameNumber, origin);
    }
  }

  /** Until the first pop, pushes stay in the forward half of `origin`. */
  predicate InHalf(l: Log, op: Op, origin: u32) {
    op.Push? && l.s.lastPopped.None? ==> Sub32(op.frame.frameNumber, origin) < HALF32
  }

  predicate AllInHalf(l: Log, ops: seq<Op>, origin: u32)
    requires Anchored(l.s)
  {
    ops == [] || (AllInHalf(l, ops[..|ops| - 1], origin) && InHalf(Run(l, ops[..|ops| - 1]), ops[|ops| - 1], origin))
  }

  /** Each frame out is strictly newer than the one before it. */
  predicate Advancing(popped: seq<CompleteFrame>) {
    forall i :: 0 < i < |popped| ==>
      FrameNewerOrEq(popped[i].frameNumber, popped[i - 1].frameNumber)
      && popped[i].frameNumber != popped[i - 1].frameNumber
  }

  predicate OrderInv(l: Log, origin: u32) {
    && Anchored(l.s) && Ordered(l.s, origin) && Advancing(l.popped)
    && l.s.lastPopped == if l.popped == [] then None else Some(l.popped[|l.popped| - 1].frameNumber)
  }

  lemma PushOrders(s: State, f: CompleteFrame, nowUs: nat, origin: u32)
    requires Ordered(s, origin) && (s.lastPopped.None? ==> Sub32(f.frameNumber, origin) < HALF32)
    ensures Ordered(AfterPush(s, f, nowUs), origin)
  {
    if !Late(s, f.frameNumber) {
      InsertOrdered(s.frames, f, if s.lastPopped.Some? then s.lastPopped.value else origin);
    }
  }

  lemma SuffixOrdered(frames: seq<CompleteFrame>, cut: nat, origin: u32)
    requires OrderedFrom(frames, origin) && cut <= |frames|
    ensures OrderedFrom(frames[cut..], origin)
  {
  }

  lemma IsAhead(frames: seq<CompleteFrame>, k: nat, origin: u32)
    requires OrderedFrom(frames, origin) && k < |frames|
    ensures FrameNewerOrEq(frames[k].frameNumber, origin)
  {
  }

  lemma TookOrders(s: State, s': State, r: Option<CompleteFrame>, origin: u32)
    requires Ordered(s, origin) && TookPrefix(s, s', r)
    ensures Ordered(s', origin)
    ensures r.Some? && s.lastPopped.Some? ==>
      FrameNewerOrEq(r.value.frameNumber, s.lastPopped.value) && r.value.frameNumber != s.lastPopped.value
  {
    hide OrderedFrom, FrameNewerOrEq;
    var from := if s.lastPopped.Some? then s.lastPopped.value else origin;
    var cut := |s.frames| - |s'.frames|;
    if r.Some? {
      Rebase(s.frames, cut - 1, from);
      IsAhead(s.frames, cut - 1, from);
    } else {
      SuffixOrdered(s.frames, cut, from);
    }
  }

  lemma PopOrders(l: Log, nowUs: nat, origin: u32)
    requires OrderInv(l, origin)
    ensures OrderInv(Step(l, Pop(nowUs)), origin)
  {
    hide AfterPop, Ordered, Advancing, FrameNewerOrEq, PopEvents;
    var (s', r) := AfterPop(l.s, nowUs);
    PopShape(l.s, nowUs);
    TookOrders(l.s, s', r, origin);
    if r.Some? { AdvancingSnoc(l.popped, r.value); } else { assert l.popped + [] == l.popped; }
  }

  lemma AdvancingSnoc(popped: seq<CompleteFrame>, f: CompleteFrame)
    requires Advancing(popped)
    requires popped != [] ==>
      var last := popped[|popped| - 1].frameNumber; FrameNewerOrEq(f.frameNumber, last) && f.frameNumber != last
    ensures Advancing(popped + [f])
  {
  }

  lemma StepOrders(l: Log, op: Op, origin: u32)
    requires OrderInv(l, origin) && InHalf(l, op, origin)
    ensures OrderInv(Step(l, op), origin)
  {
    match op
    case Push(f, now) => PushOrders(l.s, f, now, origin);
    case Pop(now) => PopOrders(l, now, origin);
    case _ =>
  }

  /** Order over every run: given half-range input until the first pop, the queue
      is always strictly ordered and strictly newer than the last frame out, so
      what goes out only ever moves forward. */
  lemma {:induction false} RunOrders(mode: Mode, intervalUs: nat, ops: seq<Op>, origin: u32)
    requires AllInHalf(Start(mode, intervalUs), ops, origin)
    ensures OrderInv(Run(Start(mode, intervalUs), ops), origin)
  {
    if ops != [] {
      RunOrders(mode, intervalUs, ops[..|ops| - 1], origin);
      StepOrders(Run(Start(mode, intervalUs), ops[..|ops| - 1]), ops[|ops| - 1], origin);
    }
  }

  // ---- keyframes --------------------------------------------------------

  /** `f` is queued, and `g` is it or behind it. */
  predicate NotBehind(frames: seq<CompleteFrame>, f: CompleteFrame, g: CompleteFrame) {
    exists i, j :: 0 <= i <= j < |frames| && frames[i] == f && frames[j] == g
  }

  /** The ways a queued keyframe goes: handed out itself or with a later keyframe handed
      out instead, flushed, or given up with its whole queue in quality mode. */
  predicate Leaves(s: State, op: Op, f: CompleteFrame)
    requires Anchored(s)
  {
    match op
    case Flush => true
    case SetMode(_) => true
    case Pop(now) =>
      var r := AfterPop(s, now).1;
      if r.Some? then r.value.keyframe && NotBehind(s.frames, f, r.value) else GivesUp(s, now)
    case _ => false
  }

  lemma BehindStays(s: State, s': State, r: Option<CompleteFrame>, i: nat)
    requires TookPrefix(s, s', r) && |s.frames| - |s'.frames| <= i < |s.frames|
    ensures s.frames[i] in s'.frames
  {
    assert s'.frames[i - (|s.frames| - |s'.frames|)] == s.frames[i];
  }

  lemma HandedBehind(s: State, s': State, f: CompleteFrame, i: nat)
    requires TookPrefix(s, s', Some(f)) && i < |s.frames| - |s'.frames|
    ensures NotBehind(s.frames, s.frames[i], f)
  {
    assert s.frames[|s.frames| - |s'.frames| - 1] == f;
  }

  lemma PopKeyframe(s: State, nowUs: nat, i: nat)
    requires Anchored(s) && i < |s.frames| && s.frames[i].keyframe
    ensures s.frames[i] in AfterPop(s, nowUs).0.frames || Leaves(s, Pop(nowUs), s.frames[i])
  {
    hide AfterPop, GivesUp, TookPrefix, NotBehind;
    var (s', r) := AfterPop(s, nowUs);
    PopShape(s, nowUs);
    if i >= |s.frames| - |s'.frames| {
      BehindStays(s, s', r, i);
    } else {
      PopSparesKeyframes(s, nowUs, i);
      if r.Some? { HandedBehind(s, s', r.value, i); }
    }
  }

  lemma PushKeepsQueued(s: State, f: CompleteFrame, nowUs: nat, i: nat)
    requires i < |s.frames|
    ensures s.frames[i] in AfterPush(s, f, nowUs).frames
  {
    var k := Slot(s.frames, f.frameNumber);
    SpliceAt(s.frames, k, f);
    assert Splice(s.frames, k, f)[if i < k then i else i + 1] == s.frames[i];
  }

  lemma KeyframeStep(l: Log, op: Op, f: CompleteFrame)
    requires Anchored(l.s) && f.keyframe && f in l.s.frames
    ensures f in Step(l, op).s.frames || Leaves(l.s, op, f)
  {
    hide AfterPop, AfterPush, NotBehind, GivesUp;
    var i :| 0 <= i < |l.s.frames| && l.s.frames[i] == f;
    match op
    case Push(g, now) => PushKeepsQueued(l.s, g, now, i);
    case Pop(now) => PopKeyframe(l.s, now, i);
    case _ =>
  }

  /** It left at some step from `n` on. */
  ghost predicate Left(l: Log, ops: seq<Op>, n: nat, f: CompleteFrame)
    requires Anchored(l.s)
  {
    exists k :: n <= k < |ops| && f in Run(l, ops[..k]).s.frames && Leaves(Run(l, ops[..k]).s, ops[k], f)
  }

  lemma LeftSnoc(l: Log, ops: seq<Op>, n: nat, f: CompleteFrame, op: Op)
    requires Anchored(l.s) && n <= |ops|
    requires Left(l, ops, n, f) || (f in Run(l, ops).s.frames && Leaves(Run(l, ops).s, op, f))
    ensures Left(l, ops + [op], n, f)
  {
    hide Leaves, Run;
    if Left(l, ops, n, f) {
      var k :| n <= k < |ops| && f in Run(l, ops[..k]).s.frames && Leaves(Run(l, ops[..k]).s, ops[k], f);
      assert (ops + [op])[..k] == ops[..k];
    } else {
      assert (ops + [op])[..|ops|] == ops;
    }
  }

  /** What becomes of a keyframe, over every run: once queued it stays queued, unless at
      some step it is handed out, a later keyframe is handed out in its place, the
      queue is flushed, or, in quality mode alone, the queue is given up because its
      head is over half a second late. */
  lemma {:induction false} KeyframeFate(mode: Mode, intervalUs: nat, ops: seq<Op>, n: nat, f: CompleteFrame)
    requires n <= |ops| && f.keyframe && f in Run(Start(mode, intervalUs), ops[..n]).s.frames
    ensures f in Run(Start(mode, intervalUs), ops).s.frames || Left(Start(mode, intervalUs), ops, n, f)
    decreases |ops|
  {
    hide Leaves, Step, Left;
    if n == |ops| {
      assert ops[..n] == ops;
    } else {
      var front, op := ops[..|ops| - 1], ops[|ops| - 1];
      assert front[..n] == ops[..n] && front + [op] == ops;
      KeyframeFate(mode, intervalUs, front, n, f);
      var l := Run(Start(mode, intervalUs), front);
      if f in l.s.frames { KeyframeStep(l, op, f); }
      if f !in Run(Start(mode, intervalUs), ops).s.frames { LeftSnoc(Start(mode, intervalUs), front, n, f, op); }
    }
  }

  // ---- a keyframe given up ----------------------------------------------

  const KEY := CompleteFrame(0, 0, 0, true, [])
  const DELTA_1 := CompleteFrame(0, 1, 0, false, [])
  const DELTA_2 := CompleteFrame(0, 2, 0, false, [])
  const NEXT_KEY := CompleteFrame(0, 3, 1_000_000, true, [])

  /** A keyframe out, then two deltas, and a keyframe due a second after them. */
  function Waiting(): State {
    State(Quality, 16_000, [DELTA_1, DELTA_2, NEXT_KEY], Some(0), Some(150_000), 0, false, None)
  }

  lemma RunSnoc(l: Log, ops: seq<Op>, op: Op)
    requires Anchored(l.s)
    ensures Run(l, ops + [op]) == Step(Run(l, ops), op)
  {
    hide Step;
    assert (ops + [op])[..|ops|] == ops;
  }

  lemma KeyframeOut()
    ensures var l := Run(Start(Quality, 16_000), [Push(KEY, 0), Pop(0)]);
      l.s == State(Quality, 16_000, [], Some(0), Some(150_000), 0, false, None) && l.popped == [KEY]
  {
    var start := Start(Quality, 16_000);
    RunSnoc(start, [], Push(KEY, 0));
    RunSnoc(start, [Push(KEY, 0)], Pop(0));
    assert [] + [Push(KEY, 0)] == [Push(KEY, 0)] && [Push(KEY, 0)] + [Pop(0)] == [Push(KEY, 0), Pop(0)];
    var s1 := AfterPush(start.s, KEY, 0);
    assert s1.frames == [KEY];
    NewestKeyframeIs(s1.frames, 1);
    assert NewestKeyframe(s1.frames, 1) == Some(0);
  }

  lemma QueueUp(l: Log)
    requires l.s == State(Quality, 16_000, [], Some(0), Some(150_000), 0, false, None)
    ensures var l' := Step(Step(Step(l, Push(DELTA_1, 0)), Push(DELTA_2, 0)), Push(NEXT_KEY, 0));
      l'.s == Waiting() && l'.popped == l.popped
  {
    var s1 := AfterPush(l.s, DELTA_1, 0);
    assert s1.frames == [DELTA_1];
    var s2 := AfterPush(s1, DELTA_2, 0);
    assert Slot(s1.frames, 2) == 1 && s2.frames == [DELTA_1, DELTA_2];
    assert Slot(s2.frames[1..], 3) == 1 && Slot(s2.frames, 3) == 2;
  }

  lemma WaitingGivesUp()
    ensures GivesUp(Waiting(), 700_000)
  {
    var s := Waiting();
    assert !DueUpTo(s, 2, 700_000) by { assert DueAt(s, 2) > 700_000; }
  }

  /** Giving up takes a keyframe that is not due along: a run that queues one and, when
      nothing but deltas has been due for half a second, loses it. */
  lemma KeyframeGivenUp()
    ensures var ops := [Push(KEY, 0), Pop(0), Push(DELTA_1, 0), Push(DELTA_2, 0), Push(NEXT_KEY, 0)];
      var before := Run(Start(Quality, 16_000), ops);
      var after := Run(Start(Quality, 16_000), ops + [Pop(700_000)]);
      && NEXT_KEY in before.s.frames && after.s.frames == [] && NEXT_KEY !in after.popped && after.s.needKeyframe
  {
    hide Step, Run, GivesUp;
    var start := Start(Quality, 16_000);
    var out := [Push(KEY, 0), Pop(0)];
    KeyframeOut();
    QueueUp(Run(start, out));
    RunSnoc(start, out, Push(DELTA_1, 0));
    RunSnoc(start, out + [Push(DELTA_1, 0)], Push(DELTA_2, 0));
    RunSnoc(start, out + [Push(DELTA_1, 0)] + [Push(DELTA_2, 0)], Push(NEXT_KEY, 0));
    var ops := [Push(KEY, 0), Pop(0), Push(DELTA_1, 0), Push(DELTA_2, 0), Push(NEXT_KEY, 0)];
    assert out + [Push(DELTA_1, 0)] + [Push(DELTA_2, 0)] + [Push(NEXT_KEY, 0)] == ops;
    RunSnoc(start, ops, Pop(700_000));
    WaitingGivesUp();
    GivesUpExactly(Waiting(), 700_000);
    GivenUpStep(Run(start, ops));
  }

  lemma GivenUpStep(l: Log)
    requires l.s == Waiting() && l.popped == [KEY] && AfterPop(Waiting(), 700_000) == (GiveUpOnGop(Waiting()), None)
    ensures var l' := Step(l, Pop(700_000)); l'.s.frames == [] && l'.popped == [KEY] && l'.s.needKeyframe
  {
  }
}
