/** The sender's adaptive bitrate and resolution controller. Times are in
    microseconds. */
module Bitrate {
  import opened Common

  const MIN_BITRATE: nat := 1_000_000
  const CUT_GUARD: nat := 500_000
  const CLEAN_RAISE: nat := 1_000_000
  const FLOOR_STEP_DOWN: nat := 2_000_000
  const CLEAN_STEP_UP: nat := 5_000_000
  const QUEUE_STEP_DOWN: nat := 1_000_000
  const MAX_STEP_UP_WAIT: nat := 60_000_000

  datatype Resolution = Resolution(width: nat, height: nat)
  datatype Decision = Decision(bitrateBps: nat, resolution: Resolution)
  datatype Stats = Stats(lost: nat, received: nat, queueDepth: nat)

  datatype State = State(
    ceiling: nat, bitrate: nat, ladder: seq<Resolution>, rung: nat, mode: Mode,
    lastCut: Option<nat>, cleanSince: Option<nat>, atFloorSince: Option<nat>, lastRaise: Option<nat>,
    lastStepUp: Option<nat>, queueHighSince: Option<nat>, stepUpWait: nat)

  // ---- the ladder -------------------------------------------------------

  function Even(n: nat): nat { n - n % 2 }

  const WIDTHS: seq<nat> := [1280, 960]

  /** The rung of a width, in the native shape, its height rounded down to even. */
  function RungOf(native: Resolution, width: nat): Resolution
    requires native.width > 0
  {
    Resolution(width, Even(width * native.height / native.width))
  }

  function Rungs(native: Resolution, widths: seq<nat>): seq<Resolution> {
    if widths == [] then [native]
    else
      var front, width := Rungs(native, widths[..|widths| - 1]), widths[|widths| - 1];
      if width < native.width then front + [RungOf(native, width)] else front
  }

  function Ladder(native: Resolution): seq<Resolution> { Rungs(native, WIDTHS) }

  /** The native shape, narrower: an even height within two lines of the exact one. */
  predicate Keeps(native: Resolution, r: Resolution) {
    && 0 < r.width < native.width && r.height % 2 == 0
    && r.height * native.width <= r.width * native.height < (r.height + 2) * native.width
  }

  lemma EvenScaled(a: nat, b: nat)
    requires b > 0
    ensures Even(a / b) % 2 == 0 && Even(a / b) * b <= a < (Even(a / b) + 2) * b
  {
    var q := a / b;
    assert q * b <= a < (q + 1) * b;
    assert Even(q) * b <= q * b && (q + 1) * b <= (Even(q) + 2) * b;
  }

  lemma RungKeeps(native: Resolution, width: nat)
    requires 0 < width < native.width
    ensures Keeps(native, RungOf(native, width))
  {
    EvenScaled(width * native.height, native.width);
  }

  /** Native first, then ever narrower rungs of the same shape. */
  lemma LadderShape(native: Resolution)
    ensures var l := Ladder(native);
      && |l| == (if native.width > 1280 then 3 else if native.width > 960 then 2 else 1)
      && l[0] == native && (forall i :: 0 < i < |l| ==> Keeps(native, l[i]) && l[i].width < l[i - 1].width)
  {
    var wide := WIDTHS[..1];
    assert WIDTHS[0] == 1280 && WIDTHS[1] == 960;
    assert wide[0] == 1280 && wide[..0] == [];
    assert Rungs(native, wide[..0]) == [native] && wide[..|wide| - 1] == wide[..0];
    var one := Rungs(native, wide);
    assert one == if native.width > 1280 then [native, RungOf(native, 1280)] else [native];
    assert Ladder(native) == if native.width > 960 then one + [RungOf(native, 960)] else one;
    if native.width > 1280 { RungKeeps(native, 1280); }
    if native.width > 960 { RungKeeps(native, 960); }
  }

  // ---- one report -------------------------------------------------------

  /** More than 2 % lost; less than 0.5 % lost. */
  predicate Heavy(st: Stats) { 50 * st.lost > st.lost + st.received }
  predicate Light(st: Stats) { st.lost == 0 || 200 * st.lost < st.lost + st.received }

  predicate Clean(st: Stats) { Light(st) && st.queueDepth <= 1 }

  /** `percent` of a bitrate, truncated; `low` when a product that should be whole
      falls just short of it in floating point. */
  function Scaled(bitrate: nat, percent: nat, low: bool): (r: nat)
    ensures 100 * r <= percent * bitrate <= 100 * r + 100
  {
    var exact := percent * bitrate;
    if low && exact % 100 == 0 && exact > 0 then exact / 100 - 1 else exact / 100
  }

  predicate Elapsed(since: Option<nat>, now: nat, gap: nat) { since.None? || SatSub(now, since.value) >= gap }

  function Or(t: Option<nat>, other: nat): nat { if t.Some? then t.value else other }

  function AfterCut(s: State, st: Stats, now: nat, low: bool): State {
    var allowed := Elapsed(s.lastCut, now, CUT_GUARD);
    if Heavy(st) && allowed then s.(bitrate := Max(Scaled(s.bitrate, 70, low), MIN_BITRATE), lastCut := Some(now))
    else if st.queueDepth > 3 && allowed then
      s.(bitrate := Max(Scaled(s.bitrate, 85, low), MIN_BITRATE), lastCut := Some(now))
    else s
  }

  function AfterRaise(s: State, st: Stats, now: nat): State {
    if !Clean(st) then s.(cleanSince := None, lastRaise := None)
    else
      var since := Or(s.cleanSince, now);
      var s1 := s.(cleanSince := Some(since));
      if SatSub(now, Or(s.lastRaise, since)) >= CLEAN_RAISE && s.bitrate < s.ceiling then
        s1.(bitrate := Min(s.bitrate + s.ceiling / 20, s.ceiling), lastRaise := Some(now))
      else s1
  }

  /** The decoder is too slow for this resolution: deep queue, clean network. */
  function AfterQueue(s: State, st: Stats, now: nat): State {
    if !(st.queueDepth > 3 && Light(st)) then s.(queueHighSince := None)
    else
      var since := Or(s.queueHighSince, now);
      if SatSub(now, since) >= QUEUE_STEP_DOWN && s.rung + 1 < |s.ladder| then
        s.(rung := s.rung + 1, queueHighSince := Some(now), stepUpWait := Min(s.stepUpWait * 2, MAX_STEP_UP_WAIT))
      else s.(queueHighSince := Some(since))
  }

  function AfterFloor(s: State, now: nat): State {
    if s.bitrate != MIN_BITRATE then s.(atFloorSince := None)
    else
      var since := Or(s.atFloorSince, now);
      if SatSub(now, since) >= FLOOR_STEP_DOWN && s.rung + 1 < |s.ladder| then
        s.(rung := s.rung + 1, atFloorSince := Some(now))
      else s.(atFloorSince := Some(since))
  }

  function AfterStepUp(s: State, now: nat): State {
    if s.cleanSince.None? then s
    else
      var from := if s.lastStepUp.Some? then Max(s.lastStepUp.value, s.cleanSince.value) else s.cleanSince.value;
      if SatSub(now, from) >= s.stepUpWait && s.rung > 0 then s.(rung := s.rung - 1, lastStepUp := Some(now)) else s
  }

  function AfterNetwork(s: State, st: Stats, now: nat, low: bool): State {
    AfterRaise(AfterCut(s, st, now, low), st, now)
  }

  function AfterPicture(s: State, st: Stats, now: nat): State {
    if s.mode.Quality? then s else AfterStepUp(AfterFloor(AfterQueue(s, st, now), now), now)
  }

  function AfterStats(s: State, st: Stats, now: nat, low: bool): State {
    AfterPicture(AfterNetwork(s, st, now, low), st, now)
  }

  function AfterMode(s: State, mode: Mode): State {
    s.(mode := mode, rung := if mode.Quality? then 0 else s.rung)
  }

  function Current(s: State): Decision
    requires s.rung < |s.ladder|
  {
    Decision(s.bitrate, s.ladder[s.rung])
  }

  function Fresh(ceiling: nat, initial: nat, native: Resolution, mode: Mode): State {
    State(ceiling, if initial < MIN_BITRATE then MIN_BITRATE else if initial > ceiling then ceiling else initial,
          Ladder(native), 0, mode, None, None, None, None, None, None, CLEAN_STEP_UP)
  }

  /** What every call keeps: the bitrate is within its bounds, the rung exists, Quality
      stays at the native one, and the wait is within its own bounds. */
  predicate Sane(s: State) {
    && MIN_BITRATE <= s.bitrate <= s.ceiling && s.rung < |s.ladder|
    && (s.mode.Quality? ==> s.rung == 0) && CLEAN_STEP_UP <= s.stepUpWait <= MAX_STEP_UP_WAIT
  }

  /** The loop inside `new`. */
  method BuildLadder(native: Resolution) returns (ladder: seq<Resolution>)
    ensures ladder == Ladder(native)
  {
    ladder := [native];
    for i := 0 to |WIDTHS|
      invariant ladder == Rungs(native, WIDTHS[..i])
    {
      assert WIDTHS[..i + 1][..i] == WIDTHS[..i];
      if WIDTHS[i] < native.width { ladder := ladder + [RungOf(native, WIDTHS[i])]; }
    }
    assert WIDTHS[..|WIDTHS|] == WIDTHS;
  }

  // ---- the object -------------------------------------------------------

  class Controller {
    const ceiling: nat
    const ladder: seq<Resolution>
    var bitrate: nat
    var rung: nat
    var mode: Mode
    var lastCut: Option<nat>
    var cleanSince: Option<nat>
    var atFloorSince: Option<nat>
    var lastRaise: Option<nat>
    var lastStepUp: Option<nat>
    var queueHighSince: Option<nat>
    var stepUpWait: nat

    ghost function Value(): State
      reads this
    {
      State(ceiling, bitrate, ladder, rung, mode, lastCut, cleanSince, atFloorSince, lastRaise, lastStepUp,
            queueHighSince, stepUpWait)
    }

    constructor (ceiling: nat, initial: nat, native: Resolution, mode: Mode)
      requires MIN_BITRATE <= ceiling
      ensures Value() == Fresh(ceiling, initial, native, mode) && Sane(Value())
    {
      LadderShape(native);
      this.ceiling := ceiling;
      bitrate := if initial < MIN_BITRATE then MIN_BITRATE else if initial > ceiling then ceiling else initial;
      var rungs := BuildLadder(native);
      ladder := rungs;
      rung, this.mode := 0, mode;
      lastCut, cleanSince, atFloorSince, lastRaise, lastStepUp, queueHighSince := None, None, None, None, None, None;
      stepUpWait := CLEAN_STEP_UP;
    }

    method SetMode(mode: Mode)
      modifies this
      ensures Value() == AfterMode(old(Value()), mode)
    {
      this.mode := mode;
      if mode.Quality? { rung := 0; }
    }

    method OnStats(st: Stats, now: nat, low: bool) returns (out: Option<Decision>)
      requires Sane(Value())
      modifies this
      ensures Value() == AfterStats(old(Value()), st, now, low) && Sane(Value())
      ensures out == if Current(Value()) != old(Current(Value())) then Some(Current(Value())) else None
    {
      var before := Decision(bitrate, ladder[rung]);
      StatsKeepSane(Value(), st, now, low);
      Cut(st, now, low);
      Raise(st, now);
      if mode.Game? {
        StepForQueue(st, now);
        StepForFloor(now);
        StepUp(now);
      }
      var after := Decision(bitrate, ladder[rung]);
      out := if after != before then Some(after) else None;
    }

    method Cut(st: Stats, now: nat, low: bool)
      modifies this
      ensures Value() == AfterCut(old(Value()), st, now, low)
    {
      var allowed := Elapsed(lastCut, now, CUT_GUARD);
      if Heavy(st) && allowed {
        bitrate := Max(Scaled(bitrate, 70, low), MIN_BITRATE);
        lastCut := Some(now);
      } else if st.queueDepth > 3 && allowed {
        bitrate := Max(Scaled(bitrate, 85, low), MIN_BITRATE);
        lastCut := Some(now);
      }
    }

    method Raise(st: Stats, now: nat)
      modifies this
      ensures Value() == AfterRaise(old(Value()), st, now)
    {
      if Clean(st) {
        if cleanSince.None? { cleanSince := Some(now); }
        var from := Or(lastRaise, cleanSince.value);
        if SatSub(now, from) >= CLEAN_RAISE && bitrate < ceiling {
          bitrate := Min(bitrate + ceiling / 20, ceiling);
          lastRaise := Some(now);
        }
      } else {
        cleanSince, lastRaise := None, None;
      }
    }

    method StepForQueue(st: Stats, now: nat)
      modifies this
      ensures Value() == AfterQueue(old(Value()), st, now)
    {
      if st.queueDepth > 3 && Light(st) {
        if queueHighSince.None? { queueHighSince := Some(now); }
        if SatSub(now, queueHighSince.value) >= QUEUE_STEP_DOWN && rung + 1 < |ladder| {
          rung := rung + 1;
          queueHighSince := Some(now);
          stepUpWait := Min(stepUpWait * 2, MAX_STEP_UP_WAIT);
        }
      } else {
        queueHighSince := None;
      }
    }

    method StepForFloor(now: nat)
      modifies this
      ensures Value() == AfterFloor(old(Value()), now)
    {
      if bitrate == MIN_BITRATE {
        if atFloorSince.None? { atFloorSince := Some(now); }
        if SatSub(now, atFloorSince.value) >= FLOOR_STEP_DOWN && rung + 1 < |ladder| {
          rung := rung + 1;
          atFloorSince := Some(now);
        }
      } else {
        atFloorSince := None;
      }
    }

    method StepUp(now: nat)
      modifies this
      ensures Value() == AfterStepUp(old(Value()), now)
    {
      if cleanSince.Some? {
        var from := if lastStepUp.Some? then Max(lastStepUp.value, cleanSince.value) else cleanSince.value;
        if SatSub(now, from) >= stepUpWait && rung > 0 {
          rung := rung - 1;
          lastStepUp := Some(now);
        }
      }
    }
  }

  // ---- what a report does -----------------------------------------------

  lemma ScaledBelow(b: nat, percent: nat, low: bool)
    requires percent <= 100
    ensures Scaled(b, percent, low) <= b
  {
    assert percent * b <= 100 * b;
  }

  /** What the bitrate half of a report does. */
  predicate NetworkStep(s: State, s1: State, now: nat) {
    && Sane(s1) && s1.ceiling == s.ceiling && s1.ladder == s.ladder && s1.rung == s.rung && s1.mode == s.mode
    && s1.stepUpWait == s.stepUpWait && s1.lastStepUp == s.lastStepUp
    && (s1.bitrate < s.bitrate ==> s1.lastCut != s.lastCut)
    && (s1.lastCut != s.lastCut ==> s1.lastCut == Some(now) && (s.lastCut.Some? ==> s.lastCut.value + CUT_GUARD <= now))
    && (s1.bitrate > s.bitrate ==> s1.lastRaise == Some(now) && RaiseRef(s, now) + CLEAN_RAISE <= now)
  }

  /** What the resolution half does. */
  predicate PictureStep(s: State, s1: State, now: nat) {
    && (Sane(s) ==> Sane(s1)) && s1.ceiling == s.ceiling && s1.ladder == s.ladder && s1.bitrate == s.bitrate
    && s1.lastCut == s.lastCut && s1.lastRaise == s.lastRaise && s1.cleanSince == s.cleanSince
    && s.stepUpWait <= s1.stepUpWait
    && (s1.rung < s.rung ==>
          s1.lastStepUp == Some(now) && (s.lastStepUp.Some? ==> s.lastStepUp.value + s.stepUpWait <= now))
    && (s1.lastStepUp == s.lastStepUp
        || (s1.lastStepUp == Some(now) && (s.lastStepUp.Some? ==> s.lastStepUp.value <= now)))
  }

  /** The moment the next raise counts from. */
  function RaiseRef(s: State, clock: nat): nat { Or(s.lastRaise, Or(s.cleanSince, clock)) }

  lemma NetworkSteps(s: State, st: Stats, now: nat, low: bool)
    requires Sane(s)
    ensures NetworkStep(s, AfterNetwork(s, st, now, low), now)
  {
    ScaledBelow(s.bitrate, 70, low);
    ScaledBelow(s.bitrate, 85, low);
  }

  lemma PictureSteps(s: State, st: Stats, now: nat)
    requires CLEAN_STEP_UP <= s.stepUpWait <= MAX_STEP_UP_WAIT
    ensures PictureStep(s, AfterPicture(s, st, now), now)
  {
    QueueSteps(s, st, now);
    FloorSteps(AfterQueue(s, st, now), now);
  }

  lemma QueueSteps(s: State, st: Stats, now: nat)
    requires s.stepUpWait <= MAX_STEP_UP_WAIT
    ensures var s1 := AfterQueue(s, st, now);
      && s1 == s.(rung := s1.rung, queueHighSince := s1.queueHighSince, stepUpWait := s1.stepUpWait)
      && (s.rung < |s.ladder| ==> s.rung <= s1.rung < |s.ladder|)
      && s.rung <= s1.rung && s.stepUpWait <= s1.stepUpWait <= MAX_STEP_UP_WAIT
  {
  }

  lemma FloorSteps(s: State, now: nat)
    ensures var s1 := AfterFloor(s, now);
      && s1 == s.(rung := s1.rung, atFloorSince := s1.atFloorSince)
      && (s.rung < |s.ladder| ==> s1.rung < |s.ladder|) && s.rung <= s1.rung
  {
  }

  /** Every report keeps the bounds, and the wait never shrinks. */
  lemma StatsKeepSane(s: State, st: Stats, now: nat, low: bool)
    requires Sane(s)
    ensures Sane(AfterStats(s, st, now, low)) && AfterStats(s, st, now, low).stepUpWait >= s.stepUpWait
  {
    NetworkSteps(s, st, now, low);
    PictureSteps(AfterNetwork(s, st, now, low), st, now);
  }

  // ---- runs -------------------------------------------------------------

  datatype Op = Report(st: Stats, now: nat, low: bool) | Choose(mode: Mode)

  /** What a caller sees of one report. */
  datatype Sample = Sample(now: nat, before: State, after: State)

  /** A cut, even one at the floor that leaves the bitrate where it is. */
  predicate Cuts(x: Sample) { x.after.lastCut != x.before.lastCut }
  predicate Raises(x: Sample) { x.after.bitrate > x.before.bitrate }
  predicate Climbs(x: Sample) { x.after.rung < x.before.rung }

  function Run(start: State, ops: seq<Op>): (State, seq<Sample>) {
    if ops == [] then (start, [])
    else
      var (s, log) := Run(start, ops[..|ops| - 1]);
      match ops[|ops| - 1]
      case Choose(mode) => (AfterMode(s, mode), log)
      case Report(st, now, low) => var s' := AfterStats(s, st, now, low); (s', log + [Sample(now, s, s')])
  }

  function ClockAt(ops: seq<Op>): nat {
    if ops == [] then 0
    else if ops[|ops| - 1].Report? then ops[|ops| - 1].now
    else ClockAt(ops[..|ops| - 1])
  }

  /** The clock never runs backwards. */
  predicate Monotone(ops: seq<Op>) {
    ops == [] || (Monotone(ops[..|ops| - 1])
                  && (ops[|ops| - 1].Report? ==> ClockAt(ops[..|ops| - 1]) <= ops[|ops| - 1].now))
  }

  predicate Timers(s: State, clock: nat) {
    && (s.lastRaise.Some? ==> s.lastRaise.value <= clock)
    && (s.cleanSince.Some? ==> s.cleanSince.value <= clock)
  }

  /** The last of each kind is on record. */
  predicate Recorded(s: State, clock: nat, log: seq<Sample>) {
    forall i :: 0 <= i < |log| ==>
      && (Cuts(log[i]) ==> s.lastCut.Some? && log[i].now <= s.lastCut.value)
      && (Raises(log[i]) ==> log[i].now <= RaiseRef(s, clock))
      && (Climbs(log[i]) ==> s.lastStepUp.Some? && log[i].now <= s.lastStepUp.value)
  }

  /** Cuts, raises and upward steps keep their distances, and the wait never shrinks. */
  predicate Paced(log: seq<Sample>) {
    forall i, j :: 0 <= i < j < |log| ==>
      && (Cuts(log[i]) && Cuts(log[j]) ==> log[i].now + CUT_GUARD <= log[j].now)
      && (Raises(log[i]) && Raises(log[j]) ==> log[i].now + CLEAN_RAISE <= log[j].now)
      && (Climbs(log[i]) && Climbs(log[j]) ==> log[i].now + log[j].before.stepUpWait <= log[j].now)
      && log[i].after.stepUpWait <= log[j].before.stepUpWait <= log[j].after.stepUpWait
  }

  /** The bitrate falls only by a cut. */
  predicate FallsByCuts(log: seq<Sample>) {
    forall i :: 0 <= i < |log| && log[i].after.bitrate < log[i].before.bitrate ==> Cuts(log[i])
  }

  lemma RaiseRefMoves(s: State, st: Stats, now: nat, low: bool, clock: nat)
    requires Timers(s, clock) && clock <= now
    ensures var s' := AfterNetwork(s, st, now, low);
      Timers(s', now) && RaiseRef(s, clock) <= RaiseRef(s', now)
  {
  }

  predicate RunInv(s: State, clock: nat, log: seq<Sample>) {
    && Sane(s) && Timers(s, clock) && Recorded(s, clock, log) && Paced(log) && FallsByCuts(log)
    && forall i :: 0 <= i < |log| ==> log[i].after.stepUpWait <= s.stepUpWait && log[i].now <= clock
  }

  lemma ReportKeeps(s: State, clock: nat, log: seq<Sample>, st: Stats, now: nat, low: bool)
    requires RunInv(s, clock, log) && clock <= now
    ensures var s' := AfterStats(s, st, now, low);
      RunInv(s', now, log + [Sample(now, s, s')])
  {
    var s1 := AfterNetwork(s, st, now, low);
    NetworkSteps(s, st, now, low);
    RaiseRefMoves(s, st, now, low, clock);
    PictureSteps(s1, st, now);
    Appended(s, clock, log, now, s1, AfterPicture(s1, st, now));
  }

  /** A sample that honours the records may join the log. */
  lemma Appended(s: State, clock: nat, log: seq<Sample>, now: nat, s1: State, s2: State)
    requires RunInv(s, clock, log) && clock <= now
    requires NetworkStep(s, s1, now) && PictureStep(s1, s2, now)
    requires Timers(s1, now) && RaiseRef(s, clock) <= RaiseRef(s1, now)
    ensures RunInv(s2, now, log + [Sample(now, s, s2)])
  {
    StaysRecorded(s, clock, log, now, s1, s2);
    StaysPaced(s, clock, log, now, s1, s2);
  }

  lemma StaysRecorded(s: State, clock: nat, log: seq<Sample>, now: nat, s1: State, s2: State)
    requires Recorded(s, clock, log)
    requires NetworkStep(s, s1, now) && PictureStep(s1, s2, now)
    requires RaiseRef(s, clock) <= RaiseRef(s1, now)
    ensures Recorded(s2, now, log + [Sample(now, s, s2)])
  {
    assert RaiseRef(s2, now) == RaiseRef(s1, now);
  }

  lemma StaysPaced(s: State, clock: nat, log: seq<Sample>, now: nat, s1: State, s2: State)
    requires RunInv(s, clock, log) && clock <= now
    requires NetworkStep(s, s1, now) && PictureStep(s1, s2, now)
    ensures Paced(log + [Sample(now, s, s2)])
  {
    assert RaiseRef(s, clock) <= RaiseRef(s, now);
  }

  /** Over every run with a clock that does not run backwards: the bitrate stays within
      floor and ceiling, the rung exists and Quality means the native one; the bitrate
      falls only by cuts, which are at least 500 ms apart, rises at least 1 s, upward steps of the
      resolution at least the wait in force, which never shrinks and stays within 5 to
      60 s. */
  lemma {:induction false} RunKeepsPace(start: State, ops: seq<Op>)
    requires Sane(start) && start.lastRaise.None? && start.cleanSince.None? && Monotone(ops)
    ensures var (s, log) := Run(start, ops);
      RunInv(s, ClockAt(ops), log)
  {
    if ops != [] {
      var front, op := ops[..|ops| - 1], ops[|ops| - 1];
      RunKeepsPace(start, front);
      var (s, log) := Run(start, front);
      if op.Report? { ReportKeeps(s, ClockAt(front), log, op.st, op.now, op.low); }
    }
  }

  // ---- recovery ---------------------------------------------------------

  /** Nothing but clean reports, at any spacing, and changes of mode. */
  predicate Uninterrupted(ops: seq<Op>) {
    forall i :: 0 <= i < |ops| && ops[i].Report? ==> Clean(ops[i].st)
  }

  function RaiseCount(log: seq<Sample>): nat {
    if log == [] then 0 else RaiseCount(log[..|log| - 1]) + if Raises(log[|log| - 1]) then 1 else 0
  }

  lemma NoRaises()
    ensures RaiseCount([]) == 0
  {
  }

  lemma RaiseCountSnoc(log: seq<Sample>, x: Sample)
    ensures RaiseCount(log + [x]) == RaiseCount(log) + if Raises(x) then 1 else 0
  {
    assert (log + [x])[..|log|] == log;
  }

  /** A clean report lifts the bitrate a twentieth of the ceiling, up to the ceiling,
      or leaves it. */
  predicate CleanStep(s: State, s': State, now: nat) {
    && Sane(s') && s'.ceiling == s.ceiling && s'.cleanSince.Some?
    && (s'.bitrate == s.bitrate || (s.bitrate < s.ceiling && s'.bitrate == Min(s.bitrate + s.ceiling / 20, s.ceiling)))
    && (s'.bitrate != s.bitrate ==> RaiseRef(s', now) == now)
    && (s'.bitrate == s.bitrate ==> RaiseRef(s', now) == RaiseRef(s, now))
    && (s'.bitrate < s'.ceiling ==> SatSub(now, RaiseRef(s', now)) < CLEAN_RAISE)
  }

  lemma CleanNetwork(s: State, st: Stats, now: nat, low: bool)
    requires Sane(s) && Clean(st)
    ensures CleanStep(s, AfterNetwork(s, st, now, low), now)
  {
  }

  lemma CleanSteps(s: State, st: Stats, now: nat, low: bool)
    requires Sane(s) && Clean(st)
    ensures CleanStep(s, AfterStats(s, st, now, low), now)
  {
    CleanNetwork(s, st, now, low);
    PictureSteps(AfterNetwork(s, st, now, low), st, now);
  }

  /** After `n` raises from `b0`. */
  function Climbed(b0: nat, n: nat, ceiling: nat): int { Min(b0 + n * (ceiling / 20), ceiling) }

  lemma OneMore(b0: nat, n: nat, ceiling: nat)
    ensures Climbed(b0, n + 1, ceiling) == Min(Climbed(b0, n, ceiling) + ceiling / 20, ceiling)
  {
    assert (n + 1) * (ceiling / 20) == n * (ceiling / 20) + ceiling / 20;
  }

  lemma NoneYet(b0: nat, ceiling: nat)
    requires b0 <= ceiling
    ensures Climbed(b0, 0, ceiling) == b0
  {
  }

  lemma ClimbStep(s: State, s': State, now: nat, b0: nat, n: nat)
    requires CleanStep(s, s', now) && s.bitrate == Climbed(b0, n, s.ceiling)
    ensures s'.bitrate == Climbed(b0, n + if s'.bitrate > s.bitrate then 1 else 0, s.ceiling)
  {
    hide Climbed, RaiseRef;
    OneMore(b0, n, s.ceiling);
  }

  /** While nothing interrupts, the bitrate is where the raises so far have put it:
      each lifts it a twentieth of the ceiling, up to the ceiling. */
  lemma {:induction false} CleanClimb(s: State, ops: seq<Op>)
    requires Sane(s) && Uninterrupted(ops)
    ensures var (s', log) := Run(s, ops);
      Sane(s') && s'.ceiling == s.ceiling && s'.bitrate == Climbed(s.bitrate, RaiseCount(log), s.ceiling)
  {
    hide Climbed, AfterStats, RaiseRef, RaiseCount;
    if ops == [] {
      NoneYet(s.bitrate, s.ceiling);
      NoRaises();
    } else {
      var front, op := ops[..|ops| - 1], ops[|ops| - 1];
      CleanClimb(s, front);
      var (s1, log) := Run(s, front);
      if op.Report? {
        var s2 := AfterStats(s1, op.st, op.now, op.low);
        CleanSteps(s1, op.st, op.now, op.low);
        RaiseCountSnoc(log, Sample(op.now, s1, s2));
        ClimbStep(s1, s2, op.now, s.bitrate, RaiseCount(log));
      }
    }
  }

  lemma TwentyReach(n: nat, ceiling: nat, b0: nat)
    requires b0 >= MIN_BITRATE
    ensures n >= 20 ==> Climbed(b0, n, ceiling) == ceiling
  {
    if n >= 20 { assert n * (ceiling / 20) >= 20 * (ceiling / 20); }
  }

  /** From any bitrate, twenty uninterrupted raises reach the ceiling, and there are
      never more than twenty: for reports at any spacing. */
  lemma {:induction false} TwentyRaises(s: State, ops: seq<Op>)
    requires Sane(s) && Uninterrupted(ops)
    ensures var (s', log) := Run(s, ops);
      RaiseCount(log) <= 20 && (RaiseCount(log) == 20 ==> s'.bitrate == s.ceiling)
  {
    var (s', log) := Run(s, ops);
    CleanClimb(s, ops);
    TwentyReach(RaiseCount(log), s.ceiling, s.bitrate);
    if ops != [] {
      var front, op := ops[..|ops| - 1], ops[|ops| - 1];
      TwentyRaises(s, front);
      var (s1, before) := Run(s, front);
      CleanClimb(s, front);
      if op.Report? {
        CleanSteps(s1, op.st, op.now, op.low);
        RaiseCountSnoc(before, Sample(op.now, s1, AfterStats(s1, op.st, op.now, op.low)));
      }
    }
  }

  // and how long that takes

  /** The time of the last report, counted from `from`. */
  function LastReport(from: nat, ops: seq<Op>): nat {
    if ops == [] then from
    else if ops[|ops| - 1].Report? then ops[|ops| - 1].now
    else LastReport(from, ops[..|ops| - 1])
  }

  /** From `from` on, a report follows the one before within `gap`. */
  predicate Frequent(from: nat, ops: seq<Op>, gap: nat) {
    ops == []
    || (var front, op := ops[..|ops| - 1], ops[|ops| - 1];
        Frequent(from, front, gap)
        && (op.Report? ==> LastReport(from, front) <= op.now <= LastReport(from, front) + gap))
  }

  predicate Reported(ops: seq<Op>) { exists i :: 0 <= i < |ops| && ops[i].Report? }

  /** By when raise `n` has been made, with reports at most `gap` apart. */
  function Due(from: nat, n: nat, gap: nat): nat {
    if n == 0 then from + gap else Due(from, n - 1, gap) + CLEAN_RAISE + gap
  }

  lemma {:induction false} DueIs(from: nat, n: nat, gap: nat)
    ensures Due(from, n, gap) == from + gap + n * (CLEAN_RAISE + gap)
  {
    if n > 0 {
      DueIs(from, n - 1, gap);
      assert n * (CLEAN_RAISE + gap) == (n - 1) * (CLEAN_RAISE + gap) + CLEAN_RAISE + gap;
    }
  }

  lemma {:induction false} DueLast(from: nat, n: nat, gap: nat)
    requires n <= 19
    ensures Due(from, n, gap) + CLEAN_RAISE <= from + 20 * (CLEAN_RAISE + gap)
    decreases 19 - n
  {
    if n < 19 { DueLast(from, n + 1, gap); } else { DueIs(from, n, gap); }
  }

  /** Below the ceiling, the next raise is due soon after the raises so far. */
  predicate OnTime(s: State, from: nat, clock: nat, n: nat, gap: nat, reported: bool) {
    && Timers(s, clock) && (!reported ==> clock == from) && (reported ==> s.cleanSince.Some?)
    && (s.bitrate < s.ceiling ==>
          (reported ==> clock < RaiseRef(s, clock) + CLEAN_RAISE)
          && RaiseRef(s, clock) <= Due(from, n, gap))
  }

  lemma {:induction false} StartsEarly(from: nat, n: nat, gap: nat)
    ensures Due(from, n, gap) >= from + gap && Due(from, n + 1, gap) == Due(from, n, gap) + CLEAN_RAISE + gap
  {
    if n > 0 { StartsEarly(from, n - 1, gap); }
  }

  lemma OnTimeStep(s: State, s': State, from: nat, clock: nat, now: nat, n: nat, gap: nat, reported: bool)
    requires CleanStep(s, s', now) && Sane(s) && Timers(s', now)
    requires OnTime(s, from, clock, n, gap, reported) && clock <= now <= clock + gap
    ensures OnTime(s', from, now, if s'.bitrate > s.bitrate then n + 1 else n, gap, true)
  {
    StartsEarly(from, n, gap);
    assert s.ceiling / 20 > 0;
  }

  lemma StatsTimers(s: State, st: Stats, now: nat, low: bool, clock: nat)
    requires Sane(s) && Timers(s, clock) && clock <= now
    ensures Timers(AfterStats(s, st, now, low), now)
  {
    NetworkSteps(s, st, now, low);
    RaiseRefMoves(s, st, now, low, clock);
    PictureSteps(AfterNetwork(s, st, now, low), st, now);
  }

  lemma ReportOnTime(s: State, op: Op, from: nat, clock: nat, n: nat, gap: nat, reported: bool)
    requires Sane(s) && op.Report? && Clean(op.st) && clock <= op.now <= clock + gap
    requires OnTime(s, from, clock, n, gap, reported)
    ensures var s' := AfterStats(s, op.st, op.now, op.low);
      OnTime(s', from, op.now, if s'.bitrate > s.bitrate then n + 1 else n, gap, true)
  {
    hide AfterStats;
    CleanSteps(s, op.st, op.now, op.low);
    StatsTimers(s, op.st, op.now, op.low, clock);
    OnTimeStep(s, AfterStats(s, op.st, op.now, op.low), from, clock, op.now, n, gap, reported);
  }

  lemma {:induction false} StaysOnTime(s: State, ops: seq<Op>, from: nat, gap: nat)
    requires Sane(s) && Timers(s, from) && Uninterrupted(ops) && Frequent(from, ops, gap)
    ensures var (s', log) := Run(s, ops);
      OnTime(s', from, LastReport(from, ops), RaiseCount(log), gap, Reported(ops))
  {
    hide AfterStats;
    if ops == [] {
      StartsEarly(from, 0, gap);
    } else {
      var front, op := ops[..|ops| - 1], ops[|ops| - 1];
      StaysOnTime(s, front, from, gap);
      CleanClimb(s, front);
      var (s1, log) := Run(s, front);
      ReportedLast(ops);
      if op.Report? {
        ReportOnTime(s1, op, from, LastReport(from, front), RaiseCount(log), gap, Reported(front));
        RaiseCountSnoc(log, Sample(op.now, s1, AfterStats(s1, op.st, op.now, op.low)));
      }
    }
  }

  lemma ReportedLast(ops: seq<Op>)
    requires ops != []
    ensures Reported(ops) <==> Reported(ops[..|ops| - 1]) || ops[|ops| - 1].Report?
  {
    var front := ops[..|ops| - 1];
    if Reported(front) {
      var i :| 0 <= i < |front| && front[i].Report?;
      assert ops[i].Report?;
    }
  }

  /** With clean reports at most `gap` apart, the ceiling is reached from any bitrate
      within twenty raise intervals and gaps. */
  lemma CeilingInTime(s: State, ops: seq<Op>, from: nat, gap: nat)
    requires Sane(s) && Timers(s, from) && Uninterrupted(ops) && Frequent(from, ops, gap)
    requires LastReport(from, ops) >= from + 20 * (CLEAN_RAISE + gap)
    ensures Run(s, ops).0.bitrate == s.ceiling
  {
    hide AfterStats;
    var (s', log) := Run(s, ops);
    StaysOnTime(s, ops, from, gap);
    CleanClimb(s, ops);
    TwentyReach(RaiseCount(log), s.ceiling, s.bitrate);
    if RaiseCount(log) <= 19 { DueLast(from, RaiseCount(log), gap); }
  }
}
