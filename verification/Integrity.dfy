/** Reassembly against the sender that produced the datagrams: every run, with
    any interleaving, duplication, loss and expiry. */
module Integrity {
  import opened Common
  import opened Wire
  import opened Frames
  import opened Reassembly

  predicate Sendable(f: SourceFrame) { f.data != [] && f.stream <= STREAM_AUDIO && Fits(f) }

  /** The non-empty frames one packetizer numbered consecutively from `start`. */
  datatype Sender = Sender(start: u32, frames: seq<SourceFrame>)

  /** All numbers lie in one half-range window. */
  predicate Sound(t: Sender) {
    && |t.frames| <= HALF32
    && forall i :: 0 <= i < |t.frames| ==> Sendable(t.frames[i])
  }

  function Number(t: Sender, i: nat): u32 { (t.start + i) % 0x1_0000_0000 }
  function Position(t: Sender, n: u32): nat { Sub32(n, t.start) }
  predicate Known(t: Sender, n: u32) { Position(t, n) < |t.frames| }

  function FrameOf(t: Sender, n: u32): SourceFrame
    requires Known(t, n)
  {
    t.frames[Position(t, n)]
  }

  /** Fragment `j` of frame `n` is one the sender put on the wire. */
  predicate WasSent(t: Sender, n: u32, j: nat) {
    Known(t, n) && Sendable(FrameOf(t, n)) && j < |Payloads(FrameOf(t, n))|
  }

  function Datagram(t: Sender, n: u32, j: nat): seq<u8>
    requires WasSent(t, n, j)
  {
    Fragment(n, FrameOf(t, n), j)
  }

  ghost predicate IsDatagram(t: Sender, d: seq<u8>) {
    exists n: u32, j: nat :: WasSent(t, n, j) && d == Datagram(t, n, j)
  }

  /** What the receiver should get for frame `n`. */
  function Original(t: Sender, n: u32): CompleteFrame
    requires Known(t, n)
  {
    var f := FrameOf(t, n);
    CompleteFrame(f.stream, n, f.timestampUs, f.keyframe, f.data)
  }

  lemma NumberPosition(t: Sender, i: nat)
    requires i < 0x1_0000_0000
    ensures Position(t, Number(t, i)) == i
  {
  }

  lemma PositionNumber(t: Sender, n: u32)
    ensures Number(t, Position(t, n)) == n
  {
  }

  /** Inside the window, the wrapping comparison is the order of sending. */
  lemma NewerIsLater(t: Sender, a: u32, b: u32)
    requires Sound(t) && Known(t, a) && Known(t, b)
    ensures FrameNewerOrEq(a, b) <==> Position(t, a) >= Position(t, b)
    ensures a == b <==> Position(t, a) == Position(t, b)
  {
    NewerByDistance(a, b, t.start);
  }

  // ---- runs -------------------------------------------------------------

  datatype Op =
    | Arrive(datagram: seq<u8>, nowUs: nat)
    | Timer(nowUs: nat, rttUs: nat, windowUs: nat)
    | Report

  /** A run so far: the reassembler, what it handed out, the frames it let
      expire, and the losses its caller has already read. */
  datatype Log = Log(s: State, out: seq<CompleteFrame>, expired: seq<Partial>, reported: nat)

  function Start(maxAgeUs: nat): Log { Log(Fresh(maxAgeUs), [], [], 0) }

  function Handed(r: Result<Option<CompleteFrame>, HeaderError>): seq<CompleteFrame> {
    if r.Ok? && r.value.Some? then [r.value.value] else []
  }

  function ExpiredAmong(s: State, keys: seq<u32>, i: nat, nowUs: nat): seq<Partial>
    requires KeysOf(s, keys) && i <= |keys|
  {
    if i == 0 then []
    else
      var p := s.partials[keys[i - 1]];
      ExpiredAmong(s, keys, i - 1, nowUs) + if Expired(p, nowUs, s.maxAgeUs) then [p] else []
  }

  function Step(l: Log, op: Op): Log
    requires Honest(l.s)
  {
    match op
    case Arrive(d, now) =>
      var (s, r) := AfterPush(l.s, d, now);
      l.(s := s, out := l.out + Handed(r))
    case Timer(now, rtt, window) =>
      var keys := Ascending(l.s.partials.Keys);
      l.(s := AfterTick(l.s, now, rtt, window).0, expired := l.expired + ExpiredAmong(l.s, keys, |keys|, now))
    case Report => l.(s := l.s.(lost := 0), reported := l.reported + l.s.lost)
  }

  lemma StepKeepsHonest(l: Log, op: Op)
    requires Honest(l.s)
    ensures Honest(Step(l, op).s)
  {
    if op.Arrive? { PushKeepsHonest(l.s, op.datagram, op.nowUs); }
  }

  function Run(l: Log, ops: seq<Op>): (r: Log)
    requires Honest(l.s)
    ensures Honest(r.s)
  {
    if ops == [] then l
    else
      var before := Run(l, ops[..|ops| - 1]);
      StepKeepsHonest(before, ops[|ops| - 1]);
      Step(before, ops[|ops| - 1])
  }

  // ---- the invariant ----------------------------------------------------

  /** A frame under assembly holds only the sender's own bytes, in place. */
  predicate Built(f: SourceFrame, p: Partial) {
    && p.stream == f.stream && p.timestampUs == f.timestampUs && p.keyframe == f.keyframe
    && |p.parts| == |Payloads(f)|
    && forall j :: 0 <= j < |p.parts| && p.parts[j].Some? ==> p.parts[j].value == Payloads(f)[j]
  }

  predicate Consistent(t: Sender, s: State) {
    && Honest(s)
    && (forall n :: n in s.partials ==> Known(t, n) && Built(FrameOf(t, n), s.partials[n]))
    && (s.newestCompleted.Some? ==> Known(t, s.newestCompleted.value))
  }

  /** Handed out: original, no longer pending, and at or below the watermark. */
  predicate Settled(t: Sender, s: State, c: CompleteFrame) {
    && Known(t, c.frameNumber) && c == Original(t, c.frameNumber)
    && c.frameNumber !in s.partials
    && s.newestCompleted.Some? && Known(t, s.newestCompleted.value)
    && Position(t, c.frameNumber) <= Position(t, s.newestCompleted.value)
  }

  predicate Distinct(out: seq<CompleteFrame>) {
    forall i, j :: 0 <= i < j < |out| ==> out[i].frameNumber != out[j].frameNumber
  }

  predicate AllSettled(t: Sender, s: State, out: seq<CompleteFrame>) {
    Distinct(out) && forall i :: 0 <= i < |out| ==> Settled(t, s, out[i])
  }

  /** Slots still empty, over a list of abandoned frames. */
  function Shortfall(ps: seq<Partial>): nat {
    if ps == [] then 0
    else
      var p := ps[|ps| - 1];
      Shortfall(ps[..|ps| - 1]) + (|p.parts| - Filled(p.parts))
  }

  lemma {:induction false} ShortfallAppend(a: seq<Partial>, b: seq<Partial>)
    ensures Shortfall(a + b) == Shortfall(a) + Shortfall(b)
  {
    if b == [] {
      assert a + b == a;
    } else {
      ShortfallAppend(a, b[..|b| - 1]);
      assert (a + b)[..|a + b| - 1] == a + b[..|b| - 1];
    }
  }

  lemma {:induction false} LossIsShortfall(s: State, keys: seq<u32>, i: nat, nowUs: nat)
    requires Honest(s) && KeysOf(s, keys) && i <= |keys|
    ensures LossOver(s, keys, i, nowUs) == Shortfall(ExpiredAmong(s, keys, i, nowUs))
  {
    if i > 0 {
      LossIsShortfall(s, keys, i - 1, nowUs);
      var p := s.partials[keys[i - 1]];
      var before := ExpiredAmong(s, keys, i - 1, nowUs);
      if Expired(p, nowUs, s.maxAgeUs) {
        assert (before + [p])[..|before|] == before;
      } else {
        assert before + [] == before;
      }
    }
  }

  /** Filled slots run together to the frame's own bytes. */
  lemma {:induction false} JoinIsConcat(parts: seq<Option<seq<u8>>>, ps: seq<seq<u8>>)
    requires |parts| == |ps|
    requires forall j :: 0 <= j < |ps| ==> parts[j] == Some(ps[j])
    ensures Join(parts) == Concat(ps)
  {
    if parts != [] { JoinIsConcat(parts[1..], ps[1..]); }
  }

  lemma EmitsOriginal(t: Sender, n: u32, p: Partial)
    requires Known(t, n) && Built(FrameOf(t, n), p) && Filled(p.parts) == |p.parts|
    ensures Emit(n, p) == Original(t, n)
  {
    var f := FrameOf(t, n);
    FilledAll(p.parts);
    JoinIsConcat(p.parts, Payloads(f));
    ChunksConcat(f.data, Budget(f.maxDatagram));
  }

  /** The partial a sent fragment lands in, and what filling its slot makes of it. */
  lemma EntryBuilt(t: Sender, s: State, n: u32, j: nat, nowUs: nat)
    requires Consistent(t, s) && WasSent(t, n, j)
    ensures var e := Entry(s, FragmentHeader(n, FrameOf(t, n), j), nowUs);
      && PartialOk(e) && Built(FrameOf(t, n), e) && j < |e.parts|
      && (e.parts[j].None? ==>
            var x := e.(parts := e.parts[j := Some(Payloads(FrameOf(t, n))[j])], received := e.received + 1);
            Built(FrameOf(t, n), x) && x.received == Filled(x.parts))
  {
    var f := FrameOf(t, n);
    var h := FragmentHeader(n, f, j);
    FragmentDecodes(n, f, j);
    EntryOk(s, h, nowUs);
    var e := Entry(s, h, nowUs);
    if e.parts[j].None? { FilledSet(e.parts, j, Payloads(f)[j]); }
  }

  /** A frame that is not stale has not been handed out before. */
  lemma NotStaleNotOut(t: Sender, s: State, out: seq<CompleteFrame>, n: u32)
    requires Sound(t) && Known(t, n) && AllSettled(t, s, out) && !Stale(s, n)
    ensures forall i :: 0 <= i < |out| ==> out[i].frameNumber != n
  {
    forall i | 0 <= i < |out| ensures out[i].frameNumber != n {
      assert Settled(t, s, out[i]);
      if out[i].frameNumber == n { NewerIsLater(t, n, s.newestCompleted.value); }
    }
  }

  /** Taking a fragment in without completing its frame. */
  lemma StoreKeeps(t: Sender, s: State, out: seq<CompleteFrame>, n: u32, e: Partial)
    requires Sound(t) && Consistent(t, s) && AllSettled(t, s, out) && Known(t, n) && !Stale(s, n)
    requires PartialOk(e) && Built(FrameOf(t, n), e)
    ensures Consistent(t, s.(partials := s.partials[n := e])) && AllSettled(t, s.(partials := s.partials[n := e]), out)
  {
    NotStaleNotOut(t, s, out, n);
    var s' := s.(partials := s.partials[n := e]);
    forall i | 0 <= i < |out| ensures Settled(t, s', out[i]) { assert Settled(t, s, out[i]); }
  }

  /** Completing a frame. */
  lemma FinishKeeps(t: Sender, s: State, out: seq<CompleteFrame>, n: u32, x: Partial)
    requires Sound(t) && Consistent(t, s) && AllSettled(t, s, out) && Known(t, n) && !Stale(s, n)
    requires Built(FrameOf(t, n), x) && Filled(x.parts) == |x.parts|
    ensures var s' := s.(partials := s.partials - {n}, newestCompleted := Watermark(s.newestCompleted, n));
      Consistent(t, s') && AllSettled(t, s', out + [Emit(n, x)])
  {
    NotStaleNotOut(t, s, out, n);
    EmitsOriginal(t, n, x);
    if s.newestCompleted.Some? { NewerIsLater(t, n, s.newestCompleted.value); }
    var s' := s.(partials := s.partials - {n}, newestCompleted := Watermark(s.newestCompleted, n));
    var out' := out + [Emit(n, x)];
    forall i | 0 <= i < |out'| ensures Settled(t, s', out'[i]) {
      if i < |out| { assert Settled(t, s, out[i]); }
    }
  }

  lemma AcceptKeeps(t: Sender, s: State, out: seq<CompleteFrame>, n: u32, j: nat, nowUs: nat)
    requires Sound(t) && Consistent(t, s) && AllSettled(t, s, out) && WasSent(t, n, j)
    ensures var (s', c) := Accept(s, FragmentHeader(n, FrameOf(t, n), j), Payloads(FrameOf(t, n))[j], nowUs);
      && Consistent(t, s')
      && AllSettled(t, s', out + if c.Some? then [c.value] else [])
  {
    assert out + [] == out;
    if !Stale(s, n) {
      EntryBuilt(t, s, n, j, nowUs);
      var e := Entry(s, FragmentHeader(n, FrameOf(t, n), j), nowUs);
      if e.parts[j].Some? {
        StoreKeeps(t, s, out, n, e);
      } else {
        var x := e.(parts := e.parts[j := Some(Payloads(FrameOf(t, n))[j])], received := e.received + 1);
        if x.received < |x.parts| { StoreKeeps(t, s, out, n, x); } else { FinishKeeps(t, s, out, n, x); }
      }
    }
  }

  lemma ArriveKeeps(t: Sender, s: State, out: seq<CompleteFrame>, d: seq<u8>, nowUs: nat)
    requires Sound(t) && Consistent(t, s) && AllSettled(t, s, out) && IsDatagram(t, d)
    ensures Consistent(t, AfterPush(s, d, nowUs).0)
    ensures AllSettled(t, AfterPush(s, d, nowUs).0, out + Handed(AfterPush(s, d, nowUs).1))
  {
    var n: u32, j: nat :| WasSent(t, n, j) && d == Datagram(t, n, j);
    FragmentDecodes(n, FrameOf(t, n), j);
    AcceptKeeps(t, s, out, n, j, nowUs);
  }

  ghost predicate FromSender(t: Sender, op: Op) { op.Arrive? ==> IsDatagram(t, op.datagram) }

  ghost predicate RunInv(t: Sender, l: Log) {
    && Consistent(t, l.s)
    && AllSettled(t, l.s, l.out)
    && l.reported + l.s.lost == Shortfall(l.expired)
  }

  lemma TimerKeeps(t: Sender, l: Log, nowUs: nat, rttUs: nat, windowUs: nat)
    requires Sound(t) && RunInv(t, l)
    ensures RunInv(t, Step(l, Timer(nowUs, rttUs, windowUs)))
  {
    hide PartialOk, Built, Expired, NacksFor, LossOver, ExpiredAmong, Shortfall;
    var keys := Ascending(l.s.partials.Keys);
    LossIsShortfall(l.s, keys, |keys|, nowUs);
    ShortfallAppend(l.expired, ExpiredAmong(l.s, keys, |keys|, nowUs));
    assert forall i :: 0 <= i < |l.out| ==> Settled(t, l.s, l.out[i]);
  }

  lemma StepKeeps(t: Sender, l: Log, op: Op)
    requires Sound(t) && RunInv(t, l) && FromSender(t, op)
    ensures RunInv(t, Step(l, op))
  {
    match op
    case Arrive(d, now) =>
      hide AfterPush, Consistent, AllSettled, Shortfall;
      ArriveKeeps(t, l.s, l.out, d, now);
    case Timer(now, rtt, window) => TimerKeeps(t, l, now, rtt, window);
    case Report => assert forall i :: 0 <= i < |l.out| ==> Settled(t, l.s, l.out[i]);
  }

  ghost predicate AllFromSender(t: Sender, ops: seq<Op>) {
    forall i :: 0 <= i < |ops| ==> FromSender(t, ops[i])
  }

  lemma {:induction false} RunKeeps(t: Sender, l: Log, ops: seq<Op>)
    requires Sound(t) && RunInv(t, l) && AllFromSender(t, ops)
    ensures RunInv(t, Run(l, ops))
  {
    if ops != [] {
      var front := ops[..|ops| - 1];
      RunKeeps(t, l, front);
      StepKeeps(t, Run(l, front), ops[|ops| - 1]);
    }
  }

  /** Reassembler integrity, over every run fed by one sender: each frame handed
      out is one that was packetized, byte for byte, and no number is handed out
      twice; what is pending is incomplete and built from the sender's bytes; the
      loss counter is the number of empty slots over all expired frames. */
  lemma RunsKeepIntegrity(t: Sender, maxAgeUs: nat, ops: seq<Op>)
    requires Sound(t) && AllFromSender(t, ops)
    ensures RunInv(t, Run(Start(maxAgeUs), ops))
  {
    RunKeeps(t, Start(maxAgeUs), ops);
  }
}
