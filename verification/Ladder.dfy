/** The sink's bitrate ladder: losses in, a ceiling for the source out. Falling is
    instant, rising is slow. */
module Ladder {
  import opened Common

  const LADDER: seq<u32> := [8000, 4000, 2000]
  const FLOOR: nat := 2
  const BAD_SECOND: nat := 5
  const CLEAN_PER_STEP: nat := 10
  const SAMPLE_INTERVAL: nat := 1_000_000_000

  type Rung = r: nat | r <= FLOOR

  /** The value of a ladder between two calls. */
  datatype State = State(rung: Rung, clean: nat, lastLoss: nat, lastSample: Option<nat>)

  const FRESH := State(0, 0, 0, None)

  /** Too soon after the last sample that counted. */
  predicate Ignored(s: State, now: nat) { s.lastSample.Some? && SatSub(now, s.lastSample.value) < SAMPLE_INTERVAL }

  predicate Bad(s: State, loss: nat) { SatSub(loss, s.lastLoss) >= BAD_SECOND }

  function AfterSample(s: State, loss: nat, now: nat): (State, Option<u32>) {
    if Ignored(s, now) then (s, None)
    else
      var s1 := s.(lastSample := Some(now), lastLoss := loss);
      if Bad(s, loss) then
        (s1.(clean := 0, rung := FLOOR), if s.rung == FLOOR then None else Some(LADDER[FLOOR]))
      else if s.clean + 1 >= CLEAN_PER_STEP && s.rung > 0 then
        (s1.(clean := 0, rung := s.rung - 1), Some(LADDER[s.rung - 1]))
      else (s1.(clean := s.clean + 1), None)
  }

  class BitrateLadder {
    var rung: Rung
    var clean: nat
    var lastLoss: nat
    var lastSample: Option<nat>

    ghost function Value(): State
      reads this
    {
      State(rung, clean, lastLoss, lastSample)
    }

    constructor ()
      ensures Value() == FRESH
    {
      rung, clean, lastLoss, lastSample := 0, 0, 0, None;
    }

    /** Takes the losses so far: the new ceiling when the source must be told of one. */
    method Sample(loss: nat, now: nat) returns (r: Option<u32>)
      modifies this
      ensures (Value(), r) == AfterSample(old(Value()), loss, now)
    {
      if lastSample.Some? && SatSub(now, lastSample.value) < SAMPLE_INTERVAL { return None; }
      lastSample := Some(now);
      var delta := SatSub(loss, lastLoss);
      lastLoss := loss;
      if delta >= BAD_SECOND {
        clean := 0;
        if rung == FLOOR { return None; }
        rung := FLOOR;
        return Some(LADDER[rung]);
      }
      clean := clean + 1;
      if clean >= CLEAN_PER_STEP && rung > 0 {
        clean := 0;
        rung := rung - 1;
        return Some(LADDER[rung]);
      }
      r := None;
    }
  }

  // ---- whole runs -------------------------------------------------------

  datatype Sample = Sample(loss: nat, now: nat)

  /** A ceiling the source was told, and when. */
  datatype Answer = Answer(kbps: u32, at: nat)

  datatype Log = Log(s: State, told: seq<Answer>)

  function Step(l: Log, x: Sample): Log {
    var (s', r) := AfterSample(l.s, x.loss, x.now);
    Log(s', if r.Some? then l.told + [Answer(r.value, x.now)] else l.told)
  }

  function Run(xs: seq<Sample>): Log {
    if xs == [] then Log(FRESH, []) else Step(Run(xs[..|xs| - 1]), xs[|xs| - 1])
  }

  /** What the source has been told last; the top of the ladder to begin with. */
  function Current(told: seq<Answer>): u32 {
    if told == [] then LADDER[0] else told[|told| - 1].kbps
  }

  /** Answer `i` falls to the floor a second or more after the one before it, or climbs
      one rung ten seconds or more after it. */
  predicate Moves(told: seq<Answer>, i: nat)
    requires i < |told|
  {
    var from, to := Current(told[..i]), told[i].kbps;
    && ((from > to && to == LADDER[FLOOR]) || (from, to) == (2000, 4000) || (from, to) == (4000, 8000))
    && (i > 0 ==> told[i].at >= told[i - 1].at + SAMPLE_INTERVAL)
    && (i > 0 && to > from ==> told[i].at >= told[i - 1].at + CLEAN_PER_STEP * SAMPLE_INTERVAL)
  }

  predicate Inv(l: Log) {
    && Current(l.told) == LADDER[l.s.rung]
    && (forall i :: 0 <= i < |l.told| ==> Moves(l.told, i))
    && (l.told != [] ==>
          l.s.lastSample.Some? && l.s.lastSample.value >= l.told[|l.told| - 1].at + l.s.clean * SAMPLE_INTERVAL)
  }

  lemma MovesSnoc(told: seq<Answer>, a: Answer)
    requires forall i :: 0 <= i < |told| ==> Moves(told, i)
    requires Moves(told + [a], |told|)
    ensures forall i :: 0 <= i < |told + [a]| ==> Moves(told + [a], i)
  {
    forall i | 0 <= i < |told| ensures Moves(told + [a], i) {
      assert (told + [a])[..i] == told[..i];
      assert Moves(told, i);
    }
  }

  lemma Told(l: Log, x: Sample)
    requires Inv(l) && AfterSample(l.s, x.loss, x.now).1.Some?
    ensures Inv(Step(l, x))
  {
    var a := Answer(AfterSample(l.s, x.loss, x.now).1.value, x.now);
    assert (l.told + [a])[..|l.told|] == l.told;
    MovesSnoc(l.told, a);
  }

  lemma StepInv(l: Log, x: Sample)
    requires Inv(l)
    ensures Inv(Step(l, x))
  {
    if AfterSample(l.s, x.loss, x.now).1.Some? { Told(l, x); }
  }

  /** Over every run, whatever the losses and the clock: what the source was told last is
      the rung in force, every answer differs from the one before, falls go straight to
      the floor, and a climb is one rung and at least ten seconds after the answer
      before it. */
  lemma {:induction false} RunNeverOscillates(xs: seq<Sample>)
    ensures var l := Run(xs);
      Current(l.told) == LADDER[l.s.rung] && forall i :: 0 <= i < |l.told| ==> Moves(l.told, i)
    ensures Inv(Run(xs))
  {
    if xs != [] {
      RunNeverOscillates(xs[..|xs| - 1]);
      StepInv(Run(xs[..|xs| - 1]), xs[|xs| - 1]);
    }
  }

  /** The last sample that counts decides a fall: after five losses the rung is the
      floor, whatever went before. */
  lemma BadSecondFalls(xs: seq<Sample>, x: Sample)
    requires !Ignored(Run(xs).s, x.now) && Bad(Run(xs).s, x.loss)
    ensures Current(Run(xs + [x]).told) == LADDER[FLOOR]
  {
    RunNeverOscillates(xs + [x]);
    assert (xs + [x])[..|xs|] == xs;
  }

  // ---- climbing ---------------------------------------------------------

  /** The samples all count, and none is bad. */
  predicate Clean(s: State, xs: seq<Sample>)
    decreases |xs|
  {
    xs == []
    || (!Ignored(s, xs[0].now) && !Bad(s, xs[0].loss) && Clean(AfterSample(s, xs[0].loss, xs[0].now).0, xs[1..]))
  }

  function AfterAll(s: State, xs: seq<Sample>): State
    decreases |xs|
  {
    if xs == [] then s else AfterAll(AfterSample(s, xs[0].loss, xs[0].now).0, xs[1..])
  }

  /** The tenth clean sample in a row climbs one rung, no earlier one does. */
  lemma {:induction false} TenthClimbs(s: State, xs: seq<Sample>)
    requires s.rung > 0 && s.clean + |xs| <= CLEAN_PER_STEP && s.clean < CLEAN_PER_STEP && Clean(s, xs)
    ensures AfterAll(s, xs).rung == if s.clean + |xs| == CLEAN_PER_STEP then s.rung - 1 else s.rung
    decreases |xs|
  {
    if |xs| > 1 { TenthClimbs(AfterSample(s, xs[0].loss, xs[0].now).0, xs[1..]); }
  }
}
