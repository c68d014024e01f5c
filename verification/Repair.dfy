/** End to end: a NACK, the sender's answer to it, and the frame it restores. */
module Repair {
  import opened Common
  import opened Wire
  import opened Frames
  import opened Reassembly
  import opened Integrity
  import R = Retransmit

  /** A run in which frame `n` is not allowed to time out. */
  predicate Spares(op: Op, firstSeenUs: nat, maxAgeUs: nat) {
    op.Timer? ==> SatSub(op.nowUs, firstSeenUs) <= maxAgeUs
  }

  predicate Arrived(d: seq<u8>, ops: seq<Op>) {
    exists i :: 0 <= i < |ops| && ops[i].Arrive? && ops[i].datagram == d
  }

  /** Frame `n` is done, or pending with everything it had and everything that came. */
  predicate Progress(t: Sender, n: u32, p0: Partial, l: Log, ops: seq<Op>)
    requires Known(t, n) && Sendable(FrameOf(t, n)) && Built(FrameOf(t, n), p0)
  {
    || Original(t, n) in l.out
    || (&& n in l.s.partials && l.s.partials[n].firstSeenUs == p0.firstSeenUs
        && |l.s.partials[n].parts| == |p0.parts|
        && forall j :: 0 <= j < |p0.parts| && (p0.parts[j].Some? || Arrived(Datagram(t, n, j), ops))
             ==> l.s.partials[n].parts[j].Some?)
  }

  /** A fragment on the wire names its frame and its index. */
  lemma DatagramInjective(t: Sender, n: u32, j: nat, n': u32, j': nat)
    requires WasSent(t, n, j) && WasSent(t, n', j') && Datagram(t, n, j) == Datagram(t, n', j')
    ensures n == n' && j == j'
  {
    FragmentDecodes(n, FrameOf(t, n), j);
    FragmentDecodes(n', FrameOf(t, n'), j');
  }

  /** Frame `n` is still pending after a fragment, with no slot emptied. */
  predicate StillPending(s: State, s': State, n: u32)
    requires n in s.partials
  {
    && n in s'.partials && s'.partials[n].firstSeenUs == s.partials[n].firstSeenUs
    && |s'.partials[n].parts| == |s.partials[n].parts|
    && (forall j :: 0 <= j < |s.partials[n].parts| && s.partials[n].parts[j].Some? ==> s'.partials[n].parts[j].Some?)
  }

  lemma OtherFragment(t: Sender, s: State, n: u32, n': u32, j': nat, nowUs: nat)
    requires Sound(t) && Consistent(t, s) && n in s.partials && WasSent(t, n', j') && n != n'
    ensures StillPending(s, AfterPush(s, Datagram(t, n', j'), nowUs).0, n)
  {
    FragmentDecodes(n', FrameOf(t, n'), j');
  }

  lemma OwnFragment(t: Sender, s: State, n: u32, j': nat, nowUs: nat)
    requires Sound(t) && Consistent(t, s) && n in s.partials && WasSent(t, n, j')
    ensures var (s', r) := AfterPush(s, Datagram(t, n, j'), nowUs);
      || Handed(r) == [Original(t, n)]
      || (StillPending(s, s', n) && j' < |s.partials[n].parts| && s'.partials[n].parts[j'].Some?)
  {
    hide Payloads, Decode, FrameOf, Filled;
    var f := FrameOf(t, n);
    FragmentDecodes(n, f, j');
    EntryBuilt(t, s, n, j', nowUs);
    var e := s.partials[n];
    if e.parts[j'].None? {
      var x := e.(parts := e.parts[j' := Some(Payloads(f)[j'])], received := e.received + 1);
      if x.received == |x.parts| { EmitsOriginal(t, n, x); }
    }
  }

  /** What one fragment does to a pending frame. */
  lemma FragmentAdvances(t: Sender, s: State, n: u32, n': u32, j': nat, nowUs: nat)
    requires Sound(t) && Consistent(t, s) && n in s.partials && WasSent(t, n', j')
    ensures var (s', r) := AfterPush(s, Datagram(t, n', j'), nowUs);
      || (n == n' && Handed(r) == [Original(t, n)])
      || (StillPending(s, s', n) && (n == n' ==> j' < |s.partials[n].parts| && s'.partials[n].parts[j'].Some?))
  {
    hide AfterPush;
    if n == n' { OwnFragment(t, s, n, j', nowUs); } else { OtherFragment(t, s, n, n', j', nowUs); }
  }

  lemma {:induction false} ArrivedSnoc(d: seq<u8>, ops: seq<Op>, op: Op)
    ensures Arrived(d, ops + [op]) <==> Arrived(d, ops) || (op.Arrive? && op.datagram == d)
  {
    assert (ops + [op])[|ops|] == op;
    assert forall i :: 0 <= i < |ops| ==> (ops + [op])[i] == ops[i];
  }

  lemma ArriveProgress(t: Sender, n: u32, p0: Partial, l: Log, ops: seq<Op>, op: Op)
    requires Sound(t) && RunInv(t, l) && FromSender(t, op) && op.Arrive?
    requires Known(t, n) && Sendable(FrameOf(t, n)) && Built(FrameOf(t, n), p0)
    requires Progress(t, n, p0, l, ops)
    ensures Progress(t, n, p0, Step(l, op), ops + [op])
  {
    var l' := Step(l, op);
    if Original(t, n) !in l'.out {
      var n': u32, j': nat :| WasSent(t, n', j') && op.datagram == Datagram(t, n', j');
      FragmentAdvances(t, l.s, n, n', j', op.nowUs);
      forall j | 0 <= j < |p0.parts| && (p0.parts[j].Some? || Arrived(Datagram(t, n, j), ops + [op]))
        ensures l'.s.partials[n].parts[j].Some?
      {
        ArrivedSnoc(Datagram(t, n, j), ops, op);
        if !p0.parts[j].Some? && !Arrived(Datagram(t, n, j), ops) {
          DatagramInjective(t, n, j, n', j');
        }
      }
    }
  }

  lemma StepProgress(t: Sender, n: u32, p0: Partial, l: Log, ops: seq<Op>, op: Op)
    requires Sound(t) && RunInv(t, l) && FromSender(t, op)
    requires Known(t, n) && Sendable(FrameOf(t, n)) && Built(FrameOf(t, n), p0)
    requires Progress(t, n, p0, l, ops) && Spares(op, p0.firstSeenUs, l.s.maxAgeUs)
    ensures Progress(t, n, p0, Step(l, op), ops + [op])
  {
    if op.Arrive? {
      ArriveProgress(t, n, p0, l, ops, op);
    } else {
      forall j | 0 <= j < |p0.parts|
        ensures Arrived(Datagram(t, n, j), ops + [op]) <==> Arrived(Datagram(t, n, j), ops)
      {
        ArrivedSnoc(Datagram(t, n, j), ops, op);
      }
    }
  }

  /** `StepProgress` with its conditions as hypotheses of one implication. */
  lemma ProgressCarries(t: Sender, n: u32, p0: Partial, l: Log, ops: seq<Op>, op: Op)
    requires Sound(t) && Honest(l.s)
    requires Known(t, n) && Sendable(FrameOf(t, n)) && Built(FrameOf(t, n), p0)
    ensures RunInv(t, l) && FromSender(t, op) && Progress(t, n, p0, l, ops)
            && Spares(op, p0.firstSeenUs, l.s.maxAgeUs) ==>
      Progress(t, n, p0, Step(l, op), ops + [op])
  {
    if RunInv(t, l) && FromSender(t, op) && Progress(t, n, p0, l, ops) && Spares(op, p0.firstSeenUs, l.s.maxAgeUs) {
      StepProgress(t, n, p0, l, ops, op);
    }
  }

  predicate AllSpare(ops: seq<Op>, firstSeenUs: nat, maxAgeUs: nat) {
    forall i :: 0 <= i < |ops| ==> Spares(ops[i], firstSeenUs, maxAgeUs)
  }

  lemma {:induction false} RunProgress(t: Sender, n: u32, p0: Partial, l: Log, ops: seq<Op>)
    requires Sound(t) && RunInv(t, l) && AllFromSender(t, ops) && n in l.s.partials && p0 == l.s.partials[n]
    requires AllSpare(ops, p0.firstSeenUs, l.s.maxAgeUs)
    ensures Progress(t, n, p0, Run(l, ops), ops)
  {
    hide Step, Fragments;
    if ops != [] {
      var front, op := ops[..|ops| - 1], ops[|ops| - 1];
      RunProgress(t, n, p0, l, front);
      RunKeeps(t, l, front);
      RunMaxAge(l, front);
      ProgressCarries(t, n, p0, Run(l, front), front, op);
      assert front + [op] == ops;
    }
  }

  lemma {:induction false} RunMaxAge(l: Log, ops: seq<Op>)
    requires Honest(l.s)
    ensures Run(l, ops).s.maxAgeUs == l.s.maxAgeUs
  {
    if ops != [] { RunMaxAge(l, ops[..|ops| - 1]); }
  }

  /** A pending frame whose missing fragments all arrive before it times out, in
      any order, with duplicates and any other traffic, is handed out: exactly
      once in the whole run, and equal to what was sent. */
  lemma MissingFragmentsRestore(t: Sender, n: u32, l: Log, ops: seq<Op>)
    requires Sound(t) && RunInv(t, l) && AllFromSender(t, ops) && n in l.s.partials
    requires AllSpare(ops, l.s.partials[n].firstSeenUs, l.s.maxAgeUs)
    requires forall j :: 0 <= j < |l.s.partials[n].parts| && l.s.partials[n].parts[j].None? ==>
               WasSent(t, n, j) && Arrived(Datagram(t, n, j), ops)
    ensures Original(t, n) !in l.out && Original(t, n) in Run(l, ops).out
    ensures RunInv(t, Run(l, ops))
  {
    RunProgress(t, n, l.s.partials[n], l, ops);
    RunKeeps(t, l, ops);
    var l' := Run(l, ops);
    forall i | 0 <= i < |l.out| ensures l.out[i] != Original(t, n) {
      assert Settled(t, l.s, l.out[i]);
    }
    if Original(t, n) !in l'.out {
      FilledAll(l'.s.partials[n].parts);
    }
  }

  // ---- with the sender's buffer -----------------------------------------

  /** One record for each frame the sender packetized, at its send time. */
  function Records(t: Sender, sentAtUs: seq<nat>): seq<R.Sent>
    requires Sound(t) && |sentAtUs| == |t.frames|
  {
    seq(|t.frames|, i requires 0 <= i < |t.frames| =>
      R.Sent(Number(t, i), t.frames[i].keyframe, sentAtUs[i], Fragments(Number(t, i), t.frames[i])))
  }

  lemma RecordsUnique(t: Sender, sentAtUs: seq<nat>, m: nat)
    requires Sound(t) && |sentAtUs| == |t.frames| && m <= |t.frames|
    ensures R.UniqueNumbers(Records(t, sentAtUs)[..m])
  {
    forall i, j | 0 <= i < j < |t.frames| ensures Number(t, i) != Number(t, j) {
      NumberPosition(t, i);
      NumberPosition(t, j);
    }
  }

  /** The sender has recorded its first `m` frames and nothing else, and frame `n` is
      one of them, young enough at `lookupUs` to be held still. */
  predicate StillHeld(t: Sender, sentAtUs: seq<nat>, sends: seq<R.Op>, m: nat, n: u32, lookupUs: nat, keepUs: nat)
    requires Sound(t)
  {
    && |sentAtUs| == |t.frames| && m <= |t.frames| && R.History(sends) == Records(t, sentAtUs)[..m]
    && Position(t, n) < m && SatSub(lookupUs, sentAtUs[Position(t, n)]) <= keepUs
  }

  lemma {:induction false} PickAll(fragments: seq<seq<u8>>, missing: seq<u16>)
    requires forall i :: 0 <= i < |missing| ==> missing[i] < |fragments|
    ensures |R.Pick(fragments, missing)| == |missing|
    ensures forall i :: 0 <= i < |missing| ==> R.Pick(fragments, missing)[i] == fragments[missing[i]]
  {
    if missing != [] { PickAll(fragments, missing[..|missing| - 1]); }
  }

  /** A NACK this receiver sends names a frame of the sender's and exactly the
      fragments of it that are missing here. */
  lemma NackNames(t: Sender, s: State, nowUs: nat, rttUs: nat, windowUs: nat, nack: Nack)
    requires Sound(t) && Consistent(t, s) && nack in AfterTick(s, nowUs, rttUs, windowUs).1
    ensures nack.frameNumber in s.partials && nack.frameNumber in AfterTick(s, nowUs, rttUs, windowUs).0.partials
    ensures Known(t, nack.frameNumber) && nack.missing != []
    ensures forall k: u16 :: k in nack.missing <==>
              k < |s.partials[nack.frameNumber].parts| && s.partials[nack.frameNumber].parts[k].None?
    ensures forall i :: 0 <= i < |nack.missing| ==> WasSent(t, nack.frameNumber, nack.missing[i])
  {
    TickNacksExactly(s, nowUs, rttUs, windowUs);
    forall i | 0 <= i < |nack.missing| ensures WasSent(t, nack.frameNumber, nack.missing[i]) {
      assert nack.missing[i] in nack.missing;
    }
  }

  /** While the frame is young enough, the lookup picks from its own fragments. */
  lemma LookupPicks(t: Sender, nack: Nack, sentAtUs: seq<nat>, sends: seq<R.Op>, m: nat, lookupUs: nat, keepUs: nat)
    requires Sound(t) && R.Clocked(sends + [R.Lookup(nack, lookupUs)])
    requires StillHeld(t, sentAtUs, sends, m, nack.frameNumber, lookupUs, keepUs)
    ensures Sendable(FrameOf(t, nack.frameNumber))
    ensures R.Answer(R.Held(sends + [R.Lookup(nack, lookupUs)], keepUs), nack)
         == R.Pick(Fragments(nack.frameNumber, FrameOf(t, nack.frameNumber)), nack.missing)
  {
    var k := Position(t, nack.frameNumber);
    RecordsUnique(t, sentAtUs, m);
    PositionNumber(t, nack.frameNumber);
    assert Records(t, sentAtUs)[..m][k].frameNumber == nack.frameNumber;
    R.LookupAgreesWithHistory(sends, nack, lookupUs, keepUs, k);
  }

  /** The sender resends exactly what was asked. */
  lemma ResendsExactly(t: Sender, s: State, nowUs: nat, rttUs: nat, windowUs: nat, nack: Nack,
                       sentAtUs: seq<nat>, sends: seq<R.Op>, m: nat, lookupUs: nat, keepUs: nat)
    requires Sound(t) && Consistent(t, s) && nack in AfterTick(s, nowUs, rttUs, windowUs).1
    requires R.Clocked(sends + [R.Lookup(nack, lookupUs)])
    requires StillHeld(t, sentAtUs, sends, m, nack.frameNumber, lookupUs, keepUs)
    ensures var resent := R.Answer(R.Held(sends + [R.Lookup(nack, lookupUs)], keepUs), nack);
      && |resent| == |nack.missing|
      && forall i :: 0 <= i < |resent| ==>
           WasSent(t, nack.frameNumber, nack.missing[i]) && resent[i] == Datagram(t, nack.frameNumber, nack.missing[i])
  {
    NackNames(t, s, nowUs, rttUs, windowUs, nack);
    LookupPicks(t, nack, sentAtUs, sends, m, lookupUs, keepUs);
    PickAll(Fragments(nack.frameNumber, FrameOf(t, nack.frameNumber)), nack.missing);
  }

  /** When the first fragment of a pending frame came. */
  function FirstSeen(s: State, n: u32): nat { if n in s.partials then s.partials[n].firstSeenUs else 0 }

  /** End-to-end repair. Take any run of a receiver fed by one sender. If its tick
      asks for a frame the sender still holds, then once the sender's answer arrives -
      in any order, with duplicates, amid any other traffic, and however far newer
      frames have moved the watermark - the original frame is handed out, and no frame
      is handed out twice in the whole run. */
  lemma EndToEnd(t: Sender, maxAgeUs: nat, before: seq<Op>, nowUs: nat, rttUs: nat, windowUs: nat, nack: Nack,
                 sentAtUs: seq<nat>, sends: seq<R.Op>, m: nat, lookupUs: nat, keepUs: nat, after: seq<Op>)
    requires Sound(t) && AllFromSender(t, before) && AllFromSender(t, after)
    requires nack in AfterTick(Run(Start(maxAgeUs), before).s, nowUs, rttUs, windowUs).1
    requires R.Clocked(sends + [R.Lookup(nack, lookupUs)])
    requires StillHeld(t, sentAtUs, sends, m, nack.frameNumber, lookupUs, keepUs)
    requires AllSpare(after, FirstSeen(Run(Start(maxAgeUs), before).s, nack.frameNumber), maxAgeUs)
    requires forall d :: d in R.Answer(R.Held(sends + [R.Lookup(nack, lookupUs)], keepUs), nack) ==> Arrived(d, after)
    ensures var l := Step(Run(Start(maxAgeUs), before), Timer(nowUs, rttUs, windowUs));
      && Original(t, nack.frameNumber) !in l.out
      && Original(t, nack.frameNumber) in Run(l, after).out
      && RunInv(t, Run(l, after))
  {
    var l0 := Run(Start(maxAgeUs), before);
    RunsKeepIntegrity(t, maxAgeUs, before);
    RunMaxAge(Start(maxAgeUs), before);
    var op := Timer(nowUs, rttUs, windowUs);
    StepKeeps(t, l0, op);
    var l := Step(l0, op);
    var n := nack.frameNumber;
    NackNames(t, l0.s, nowUs, rttUs, windowUs, nack);
    ResendsExactly(t, l0.s, nowUs, rttUs, windowUs, nack, sentAtUs, sends, m, lookupUs, keepUs);
    var resent := R.Answer(R.Held(sends + [R.Lookup(nack, lookupUs)], keepUs), nack);
    forall j | 0 <= j < |l.s.partials[n].parts| && l.s.partials[n].parts[j].None?
      ensures WasSent(t, n, j) && Arrived(Datagram(t, n, j), after)
    {
      var k: u16 := j;
      assert k in nack.missing;
      var i :| 0 <= i < |nack.missing| && nack.missing[i] == k;
      assert resent[i] in resent;
    }
    MissingFragmentsRestore(t, n, l, after);
  }
}
