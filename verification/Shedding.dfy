/** What sustained loss does to the bitrate and the resolution, and how they come back. */
module Shedding {
  import opened Common
  import opened Bitrate

  // ---- one report -------------------------------------------------------

  /** Down to this percentage, in whole bits per second, but not below the floor. */
  predicate CutTo(before: nat, after: nat, percent: nat) {
    after == MIN_BITRATE || (after > MIN_BITRATE && 100 * after <= percent * before <= 100 * after + 100)
  }

  /** A report cuts exactly when the guard allows it and there is a reason: to 70 % on
      loss above 2 %, else to 85 % on a deep queue. */
  lemma CutsExactly(s: State, st: Stats, now: nat, low: bool)
    requires Sane(s)
    ensures var s1 := AfterStats(s, st, now, low);
      var allowed := s.lastCut.None? || now >= s.lastCut.value + 500_000;
      if allowed && 50 * st.lost > st.lost + st.received then
        CutTo(s.bitrate, s1.bitrate, 70) && s1.lastCut == Some(now)
      else if allowed && st.queueDepth > 3 then CutTo(s.bitrate, s1.bitrate, 85) && s1.lastCut == Some(now)
      else s1.bitrate >= s.bitrate && s1.lastCut == s.lastCut
  {
    var s1 := AfterNetwork(s, st, now, low);
    NetworkSteps(s, st, now, low);
    PictureSteps(s1, st, now);
  }

  /** A heavy report raises nothing, and steps the resolution down exactly when the
      bitrate has been at its floor for two seconds. */
  lemma FloorStepsExactly(s: State, st: Stats, now: nat, low: bool)
    requires Sane(s) && Heavy(st) && s.mode.Game?
    ensures var s1 := AfterStats(s, st, now, low);
      var down := s1.bitrate == MIN_BITRATE && s.atFloorSince.Some? && now >= s.atFloorSince.value + 2_000_000
                  && s.rung + 1 < |s.ladder|;
      && s1.rung == s.rung + (if down then 1 else 0) && s1.bitrate <= s.bitrate
      && s1.atFloorSince == (if s1.bitrate != MIN_BITRATE then None
                             else if down || s.atFloorSince.None? then Some(now) else s.atFloorSince)
      && s1.mode == s.mode && s1.ladder == s.ladder && s1.ceiling == s.ceiling
  {
    ScaledBelow(s.bitrate, 70, low);
    ScaledBelow(s.bitrate, 85, low);
  }

  /** A deep queue on a clean network steps the resolution down exactly when it has been
      deep for a second, and doubles the wait for the way back, up to a minute; a rung more
      goes when the floor asks for one too. */
  lemma QueueStepsExactly(s: State, st: Stats, now: nat, low: bool)
    requires Sane(s) && st.queueDepth > 3 && Light(st) && s.mode.Game?
    ensures var s1 := AfterStats(s, st, now, low);
      var last := |s.ladder| - 1;
      var deep := s.queueHighSince.Some? && now >= s.queueHighSince.value + 1_000_000 && s.rung < last;
      var rung := s.rung + if deep then 1 else 0;
      var floor := s1.bitrate == MIN_BITRATE && s.atFloorSince.Some? && now >= s.atFloorSince.value + 2_000_000
                   && rung < last;
      && s1.rung == rung + (if floor then 1 else 0)
      && s1.stepUpWait == (if deep then Min(2 * s.stepUpWait, 60_000_000) else s.stepUpWait)
      && s1.queueHighSince == (if deep || s.queueHighSince.None? then Some(now) else s.queueHighSince)
  {
  }

  // ---- down to the floor ------------------------------------------------

  /** Nothing but reports of heavy loss, at any spacing, and changes of mode. */
  predicate Lossy(ops: seq<Op>) { forall i :: 0 <= i < |ops| && ops[i].Report? ==> Heavy(ops[i].st) }

  function CutCount(log: seq<Sample>): nat {
    if log == [] then 0 else CutCount(log[..|log| - 1]) + if Cuts(log[|log| - 1]) then 1 else 0
  }

  lemma CutCountSnoc(log: seq<Sample>, x: Sample)
    ensures CutCount(log + [x]) == CutCount(log) + if Cuts(x) then 1 else 0
  {
    assert (log + [x])[..|log|] == log;
  }

  /** The most that is left of a bitrate after so many cuts. */
  function Left(b: nat, cuts: nat): nat {
    if cuts == 0 then b else Max(Left(b, cuts - 1) * 7 / 10, MIN_BITRATE)
  }

  lemma {:induction false} LeftShift(b: nat, cuts: nat)
    ensures Left(b, cuts + 1) == Left(Max(b * 7 / 10, MIN_BITRATE), cuts)
  {
    if cuts > 0 { LeftShift(b, cuts - 1); }
  }

  lemma {:induction false} LeftMonotone(b: nat, c: nat, cuts: nat)
    requires b <= c
    ensures Left(b, cuts) <= Left(c, cuts)
  {
    if cuts > 0 { LeftMonotone(b, c, cuts - 1); }
  }

  function Pow2(k: nat): nat { if k == 0 then 1 else 2 * Pow2(k - 1) }

  /** Two cuts halve: a bitrate of `2^k` times the floor is at the floor after `2k`. */
  lemma {:induction false} CutsReachFloor(b: nat, k: nat)
    requires MIN_BITRATE <= b <= MIN_BITRATE * Pow2(k)
    ensures Left(b, 2 * k) == MIN_BITRATE
  {
    if k > 0 {
      var b1 := Max(b * 7 / 10, MIN_BITRATE);
      var b2 := Max(b1 * 7 / 10, MIN_BITRATE);
      LeftShift(b, 2 * k - 1);
      LeftShift(b1, 2 * k - 2);
      Doubled(k);
      CutsReachFloor(b2, k - 1);
    }
  }

  lemma {:induction false} Doubled(k: nat)
    requires k > 0
    ensures Pow2(k) == 2 * Pow2(k - 1) && Pow2(k) >= 2
  {
    if k > 1 { Doubled(k - 1); }
  }

  lemma {:induction false} LeftMore(b: nat, cuts: nat, more: nat)
    requires cuts <= more && Left(b, cuts) == MIN_BITRATE
    ensures Left(b, more) == MIN_BITRATE
    decreases more
  {
    if cuts < more { LeftMore(b, cuts, more - 1); }
  }

  /** What a heavy report does to the bitrate: a cut, unless the last one is too recent. */
  predicate HeavyStep(s: State, s1: State, now: nat) {
    && Sane(s1) && s1.ceiling == s.ceiling && s1.ladder == s.ladder
    && if Elapsed(s.lastCut, now, CUT_GUARD) then
         s1.lastCut == Some(now) && s1.bitrate <= Max(s.bitrate * 7 / 10, MIN_BITRATE)
       else s1.lastCut == s.lastCut && s1.bitrate == s.bitrate
  }

  lemma HeavySteps(s: State, st: Stats, now: nat, low: bool)
    requires Sane(s) && Heavy(st)
    ensures HeavyStep(s, AfterStats(s, st, now, low), now)
  {
    NetworkSteps(s, st, now, low);
    PictureSteps(AfterNetwork(s, st, now, low), st, now);
  }

  /** By when `n` of something are done that is due `every` so often and done at the next
      report, these being `gap` apart. */
  function By(from: nat, n: nat, every: nat, gap: nat): nat { from + n * (every + gap) }

  lemma ByNext(from: nat, n: nat, every: nat, gap: nat)
    ensures By(from, n + 1, every, gap) == By(from, n, every, gap) + every + gap && By(from, n, every, gap) >= from
  {
    assert (n + 1) * (every + gap) == n * (every + gap) + every + gap;
  }

  lemma {:induction false} ByMonotone(from: nat, n: nat, m: nat, every: nat, gap: nat)
    requires n <= m
    ensures By(from, n, every, gap) <= By(from, m, every, gap)
    decreases m
  {
    if n < m {
      ByMonotone(from, n, m - 1, every, gap);
      ByNext(from, m - 1, every, gap);
    }
  }

  /** The cuts so far came in time, and the next one is not overdue. */
  predicate CutsOnTime(s: State, from: nat, clock: nat, n: nat, gap: nat, reported: bool) {
    && (s.lastCut.Some? ==> s.lastCut.value <= clock && s.lastCut.value <= By(from, n, CUT_GUARD, gap))
    && (!reported ==> clock == from) && (reported ==> s.lastCut.Some? && clock < s.lastCut.value + CUT_GUARD)
  }

  lemma CutOnTime(s: State, s1: State, from: nat, clock: nat, now: nat, n: nat, gap: nat, reported: bool)
    requires HeavyStep(s, s1, now) && CutsOnTime(s, from, clock, n, gap, reported) && clock <= now <= clock + gap
    ensures CutsOnTime(s1, from, now, if s1.lastCut != s.lastCut then n + 1 else n, gap, true)
  {
    hide By;
    ByNext(from, n, CUT_GUARD, gap);
  }

  /** Under sustained loss the bitrate is no more than the cuts so far have left of it,
      and they come in time. */
  lemma {:induction false} LossCuts(s: State, ops: seq<Op>, from: nat, gap: nat)
    requires Sane(s) && (s.lastCut.Some? ==> s.lastCut.value <= from) && Lossy(ops) && Frequent(from, ops, gap)
    ensures var (s1, log) := Run(s, ops);
      && Sane(s1) && s1.ceiling == s.ceiling && s1.bitrate <= Left(s.bitrate, CutCount(log))
      && CutsOnTime(s1, from, LastReport(from, ops), CutCount(log), gap, Reported(ops))
  {
    hide AfterStats, By, Left;
    if ops == [] {
      Uncut(s.bitrate, from, gap);
    } else {
      var front, op := ops[..|ops| - 1], ops[|ops| - 1];
      LossCuts(s, front, from, gap);
      ReportedLast(ops);
      var (s1, log) := Run(s, front);
      if op.Report? {
        var s2 := AfterStats(s1, op.st, op.now, op.low);
        HeavySteps(s1, op.st, op.now, op.low);
        CutCountSnoc(log, Sample(op.now, s1, s2));
        CutOnTime(s1, s2, from, LastReport(from, front), op.now, CutCount(log), gap, Reported(front));
        OneCutMore(s.bitrate, CutCount(log), s1.bitrate);
      }
    }
  }

  lemma Uncut(b: nat, from: nat, gap: nat)
    ensures Left(b, 0) == b && By(from, 0, CUT_GUARD, gap) == from && CutCount([]) == 0
  {
  }

  lemma OneCutMore(b: nat, n: nat, now: nat)
    requires now <= Left(b, n)
    ensures Max(now * 7 / 10, MIN_BITRATE) <= Left(b, n + 1)
  {
  }

  /** Under sustained loss, reported at most `gap` apart, the bitrate is at its floor after
      two cuts for each halving it is away from it. */
  lemma FloorInTime(s: State, ops: seq<Op>, from: nat, gap: nat, k: nat)
    requires Sane(s) && (s.lastCut.Some? ==> s.lastCut.value <= from) && Lossy(ops) && Frequent(from, ops, gap)
    requires s.bitrate <= MIN_BITRATE * Pow2(k) && Reported(ops)
    requires LastReport(from, ops) >= from + 2 * k * (CUT_GUARD + gap)
    ensures Run(s, ops).0.bitrate == MIN_BITRATE
  {
    hide AfterStats, Left, By;
    var (s1, log) := Run(s, ops);
    LossCuts(s, ops, from, gap);
    CutsReachFloor(s.bitrate, k);
    EnoughCuts(s1, from, LastReport(from, ops), CutCount(log), 2 * k, gap);
    LeftMore(s.bitrate, 2 * k, CutCount(log));
  }

  lemma EnoughCuts(s: State, from: nat, clock: nat, n: nat, m: nat, gap: nat)
    requires CutsOnTime(s, from, clock, n, gap, true) && clock >= from + m * (CUT_GUARD + gap)
    ensures n >= m
  {
    if n < m {
      ByNext(from, n, CUT_GUARD, gap);
      ByMonotone(from, n + 1, m, CUT_GUARD, gap);
    }
  }

  // ---- down the ladder --------------------------------------------------

  /** In game mode, at the floor: the steps so far came in time, and the next one is not
      overdue. */
  predicate StepsOnTime(s: State, from: nat, clock: nat, n: nat, gap: nat, reported: bool) {
    && (s.atFloorSince.Some? ==>
          s.atFloorSince.value <= clock && s.atFloorSince.value <= By(from, n, FLOOR_STEP_DOWN, gap) + gap)
    && (!reported ==> clock == from)
    && (reported ==> s.atFloorSince.Some?
                     && (s.rung + 1 < |s.ladder| ==> clock < s.atFloorSince.value + FLOOR_STEP_DOWN))
  }

  /** Where the floor keeps the bitrate. */
  predicate AtFloor(s: State, ladder: seq<Resolution>) {
    Sane(s) && s.bitrate == MIN_BITRATE && s.mode.Game? && s.ladder == ladder
  }

  lemma StepOnTime(s: State, s1: State, rung: nat, from: nat, clock: nat, st: Stats, now: nat, low: bool, gap: nat,
                   reported: bool)
    requires AtFloor(s, s.ladder) && Heavy(st) && s1 == AfterStats(s, st, now, low) && rung <= s.rung
    requires StepsOnTime(s, from, clock, s.rung - rung, gap, reported) && clock <= now <= clock + gap
    ensures AtFloor(s1, s.ladder) && s.rung <= s1.rung && StepsOnTime(s1, from, now, s1.rung - rung, gap, true)
  {
    hide AfterStats, By;
    FloorStepsExactly(s, st, now, low);
    StatsKeepSane(s, st, now, low);
    ByNext(from, s.rung - rung, FLOOR_STEP_DOWN, gap);
  }

  /** Nothing but reports. */
  predicate OnlyReports(ops: seq<Op>) { forall i :: 0 <= i < |ops| ==> ops[i].Report? }

  lemma {:induction false} LossSteps(s: State, ops: seq<Op>, from: nat, gap: nat)
    requires AtFloor(s, s.ladder) && (s.atFloorSince.Some? ==> s.atFloorSince.value <= from)
    requires OnlyReports(ops) && Lossy(ops) && Frequent(from, ops, gap)
    ensures var s1 := Run(s, ops).0;
      && AtFloor(s1, s.ladder) && s.rung <= s1.rung
      && StepsOnTime(s1, from, LastReport(from, ops), s1.rung - s.rung, gap, ops != [])
  {
    hide AfterStats, By;
    if ops == [] {
      ByIs(from, 0, FLOOR_STEP_DOWN, gap);
    } else {
      var front, op := ops[..|ops| - 1], ops[|ops| - 1];
      LossSteps(s, front, from, gap);
      var s1 := Run(s, front).0;
      StepOnTime(s1, AfterStats(s1, op.st, op.now, op.low), s.rung, from, LastReport(from, front), op.st, op.now,
                 op.low, gap, front != []);
    }
  }

  /** Sustained loss at the floor takes the resolution down a rung every two seconds,
      and so to the last one. */
  lemma LastRungInTime(s: State, ops: seq<Op>, from: nat, gap: nat)
    requires AtFloor(s, s.ladder) && (s.atFloorSince.Some? ==> s.atFloorSince.value <= from)
    requires OnlyReports(ops) && Lossy(ops) && Frequent(from, ops, gap)
    requires ops != [] && LastReport(from, ops) >= from + (|s.ladder| - 1 - s.rung) * (FLOOR_STEP_DOWN + gap)
    ensures Run(s, ops).0.rung == |s.ladder| - 1
  {
    hide AfterStats, By;
    var s1 := Run(s, ops).0;
    LossSteps(s, ops, from, gap);
    var n, m := s1.rung - s.rung, |s.ladder| - 1 - s.rung;
    if n < m {
      ByNext(from, n, FLOOR_STEP_DOWN, gap);
      ByMonotone(from, n + 1, m, FLOOR_STEP_DOWN, gap);
      ByIs(from, m, FLOOR_STEP_DOWN, gap);
    }
  }

  // ---- and back up ------------------------------------------------------

  /** Above the floor, a clean report steps the resolution up exactly when it has been
      clean, and no step up was made, for as long as the wait in force. */
  lemma ClimbsExactly(s: State, st: Stats, now: nat, low: bool)
    requires Sane(s) && Clean(st) && s.mode.Game? && s.bitrate > MIN_BITRATE
    ensures var s1 := AfterStats(s, st, now, low);
      var since := Or(s.cleanSince, now);
      var from := if s.lastStepUp.Some? && s.lastStepUp.value > since then s.lastStepUp.value else since;
      var up := SatSub(now, from) >= s.stepUpWait && s.rung > 0;
      && s1.rung == s.rung - (if up then 1 else 0) && s1.lastStepUp == (if up then Some(now) else s.lastStepUp)
      && s1.cleanSince == Some(since) && s1.bitrate >= s.bitrate && s1.stepUpWait == s.stepUpWait
      && s1.mode == s.mode && s1.ladder == s.ladder
  {
  }

  /** The moment the next step up counts from. */
  function StepRef(s: State, clock: nat): nat {
    Max(if s.lastStepUp.Some? then s.lastStepUp.value else 0, Or(s.cleanSince, clock))
  }

  /** In game mode above the floor, with steps up that came in time. */
  predicate ClimbsOnTime(s: State, wait: nat, from: nat, clock: nat, n: nat, gap: nat, reported: bool) {
    && Sane(s) && s.mode.Game? && s.bitrate > MIN_BITRATE && s.stepUpWait == wait
    && StepRef(s, clock) <= clock && StepRef(s, clock) <= By(from, n, wait, gap) + gap
    && (!reported ==> clock == from) && (reported ==> s.cleanSince.Some?)
    && (reported && s.rung > 0 ==> clock < StepRef(s, clock) + wait)
  }

  lemma ClimbOnTime(s: State, s1: State, rung: nat, from: nat, clock: nat, st: Stats, now: nat, low: bool, gap: nat,
                    reported: bool)
    requires Clean(st) && s1 == AfterStats(s, st, now, low) && s.rung <= rung
    requires ClimbsOnTime(s, s.stepUpWait, from, clock, rung - s.rung, gap, reported) && clock <= now <= clock + gap
    ensures s1.rung <= s.rung && s1.stepUpWait == s.stepUpWait
    ensures ClimbsOnTime(s1, s.stepUpWait, from, now, rung - s1.rung, gap, true)
  {
    hide AfterStats, By;
    ClimbsExactly(s, st, now, low);
    StatsKeepSane(s, st, now, low);
    ByNext(from, rung - s.rung, s.stepUpWait, gap);
  }

  lemma {:induction false} SpellClimbs(s: State, ops: seq<Op>, from: nat, gap: nat)
    requires Sane(s) && s.mode.Game? && s.bitrate > MIN_BITRATE && StepRef(s, from) <= from
    requires OnlyReports(ops) && Uninterrupted(ops) && Frequent(from, ops, gap)
    ensures var s1 := Run(s, ops).0;
      s1.rung <= s.rung && ClimbsOnTime(s1, s.stepUpWait, from, LastReport(from, ops), s.rung - s1.rung, gap, ops != [])
  {
    hide AfterStats, By;
    if ops == [] {
      ByIs(from, 0, s.stepUpWait, gap);
    } else {
      var front, op := ops[..|ops| - 1], ops[|ops| - 1];
      SpellClimbs(s, front, from, gap);
      var s1 := Run(s, front).0;
      ClimbOnTime(s1, AfterStats(s1, op.st, op.now, op.low), s.rung, from, LastReport(from, front), op.st, op.now,
                  op.low, gap, front != []);
    }
  }

  /** A clean spell in game mode brings the native resolution back, a rung with every
      wait. */
  lemma NativeInTime(s: State, ops: seq<Op>, from: nat, gap: nat)
    requires Sane(s) && s.mode.Game? && s.bitrate > MIN_BITRATE && StepRef(s, from) <= from
    requires OnlyReports(ops) && Uninterrupted(ops) && Frequent(from, ops, gap)
    requires ops != [] && LastReport(from, ops) >= from + s.rung * (s.stepUpWait + gap)
    ensures Run(s, ops).0.rung == 0
  {
    hide AfterStats, By;
    var s1 := Run(s, ops).0;
    SpellClimbs(s, ops, from, gap);
    var n := s.rung - s1.rung;
    if n < s.rung {
      ByNext(from, n, s.stepUpWait, gap);
      ByMonotone(from, n + 1, s.rung, s.stepUpWait, gap);
      ByIs(from, s.rung, s.stepUpWait, gap);
    }
  }

  lemma ByIs(from: nat, n: nat, every: nat, gap: nat)
    ensures By(from, n, every, gap) == from + n * (every + gap)
  {
  }
}
