/** What happens to the screen when a Miracast peer comes and goes. */
module Lifecycle {
  import opened Common

  /** How long the screen stays with a peer that vanished, in milliseconds. */
  const HOLD_MS: nat := 30_000

  datatype Phase = Advertising | Streaming | Holding
  datatype Event = Connected | Ended | RadioError
  datatype Action = AcquireDisplay | ReleaseDisplay | ShowReconnecting | ClearOverlay | RebuildGroup

  datatype State = State(phase: Phase, holdingSince: Option<nat>)

  const FRESH := State(Advertising, None)

  predicate HoldsDisplay(s: State) { s.phase.Streaming? || s.phase.Holding? }

  function On(s: State, e: Event, nowMs: nat): (State, seq<Action>) {
    match (s.phase, e)
    case (Advertising, Connected) => (s.(phase := Streaming), [AcquireDisplay, ClearOverlay])
    case (Holding, Connected) => (State(Streaming, None), [ClearOverlay])
    case (Streaming, Ended) => (State(Holding, Some(nowMs)), [ShowReconnecting])
    case (_, RadioError) =>
      (State(Advertising, None),
       if HoldsDisplay(s) then [ReleaseDisplay, RebuildGroup, ClearOverlay] else [RebuildGroup])
    case _ => (s, [])
  }

  function AbandonHold(s: State): (State, seq<Action>) {
    if s.phase.Holding? then (State(Advertising, None), [ReleaseDisplay]) else (s, [])
  }

  function Tick(s: State, nowMs: nat): (State, seq<Action>) {
    if s.holdingSince.None? || SatSub(nowMs, s.holdingSince.value) < HOLD_MS then (s, [])
    else (State(Advertising, None), [ReleaseDisplay])
  }

  class Machine {
    var phase: Phase
    var holdingSince: Option<nat>

    ghost function Value(): State
      reads this
    {
      State(phase, holdingSince)
    }

    constructor ()
      ensures Value() == FRESH
    {
      phase, holdingSince := Advertising, None;
    }

    method Handle(e: Event, nowMs: nat) returns (out: seq<Action>)
      modifies this
      ensures (Value(), out) == On(old(Value()), e, nowMs)
    {
      match (phase, e) {
        case (Advertising, Connected) =>
          phase := Streaming;
          out := [AcquireDisplay, ClearOverlay];
        case (Holding, Connected) =>
          phase := Streaming;
          holdingSince := None;
          out := [ClearOverlay];
        case (Streaming, Ended) =>
          phase := Holding;
          holdingSince := Some(nowMs);
          out := [ShowReconnecting];
        case (_, RadioError) =>
          var held := phase.Streaming? || phase.Holding?;
          phase := Advertising;
          holdingSince := None;
          out := [RebuildGroup];
          if held { out := [ReleaseDisplay, RebuildGroup, ClearOverlay]; }
        case _ =>
          out := [];
      }
    }

    method GiveUpHold() returns (out: seq<Action>)
      modifies this
      ensures (Value(), out) == AbandonHold(old(Value()))
    {
      if !phase.Holding? { return []; }
      phase := Advertising;
      holdingSince := None;
      out := [ReleaseDisplay];
    }

    method Clock(nowMs: nat) returns (out: seq<Action>)
      modifies this
      ensures (Value(), out) == Tick(old(Value()), nowMs)
    {
      if holdingSince.None? { return []; }
      if SatSub(nowMs, holdingSince.value) < HOLD_MS { return []; }
      phase := Advertising;
      holdingSince := None;
      out := [ReleaseDisplay];
    }
  }

  // ---- runs -------------------------------------------------------------

  datatype Op = Happens(e: Event, nowMs: nat) | Abandon | TickAt(nowMs: nat)

  function Step(s: State, op: Op): (State, seq<Action>) {
    match op
    case Happens(e, now) => On(s, e, now)
    case Abandon => AbandonHold(s)
    case TickAt(now) => Tick(s, now)
  }

  /** The state after a run, and every action it asked for. */
  function Run(ops: seq<Op>): (State, seq<Action>) {
    if ops == [] then (FRESH, [])
    else
      var (s, done) := Run(ops[..|ops| - 1]);
      var (s', more) := Step(s, ops[|ops| - 1]);
      (s', done + more)
  }

  /** The requests that move the display. */
  function Display(actions: seq<Action>): seq<Action> {
    if actions == [] then []
    else
      var last := actions[|actions| - 1];
      Display(actions[..|actions| - 1]) + if last.AcquireDisplay? || last.ReleaseDisplay? then [last] else []
  }

  lemma {:induction false} DisplayAppend(a: seq<Action>, b: seq<Action>)
    ensures Display(a + b) == Display(a) + Display(b)
  {
    if b == [] {
      assert a + b == a;
    } else {
      DisplayAppend(a, b[..|b| - 1]);
      assert (a + b)[..|a + b| - 1] == a + b[..|b| - 1];
    }
  }

  /** Taken and given back in turn, starting with taken. */
  predicate Alternates(ds: seq<Action>) {
    forall i :: 0 <= i < |ds| ==> ds[i] == if i % 2 == 0 then AcquireDisplay else ReleaseDisplay
  }

  predicate Sane(s: State) { s.holdingSince.Some? <==> s.phase.Holding? }

  function IfDisplay(a: Action): seq<Action> { if a.AcquireDisplay? || a.ReleaseDisplay? then [a] else [] }

  lemma DisplayOne(a: Action)
    ensures Display([a]) == IfDisplay(a)
  {
    assert [a][..0] == [];
  }

  lemma DisplayTwo(a: Action, b: Action)
    ensures Display([a, b]) == IfDisplay(a) + IfDisplay(b)
  {
    DisplayOne(a);
    assert [a, b][..1] == [a];
  }

  lemma DisplayThree(a: Action, b: Action, c: Action)
    ensures Display([a, b, c]) == IfDisplay(a) + IfDisplay(b) + IfDisplay(c)
  {
    DisplayTwo(a, b);
    assert [a, b, c][..2] == [a, b];
  }

  /** What one step asks of the display follows from how it moves the phase. */
  lemma StepDisplay(s: State, op: Op)
    requires Sane(s)
    ensures var (s', more) := Step(s, op);
      && Sane(s')
      && Display(more) == (if HoldsDisplay(s) == HoldsDisplay(s') then []
                           else if HoldsDisplay(s') then [AcquireDisplay] else [ReleaseDisplay])
  {
    DisplayTwo(AcquireDisplay, ClearOverlay);
    DisplayOne(ClearOverlay);
    DisplayOne(ShowReconnecting);
    DisplayThree(ReleaseDisplay, RebuildGroup, ClearOverlay);
    DisplayOne(RebuildGroup);
    DisplayOne(ReleaseDisplay);
  }

  /** Alternation survives a step, whose request follows from the phase. */
  lemma AlternatesOn(ds: seq<Action>, holds: bool, holds': bool)
    requires Alternates(ds) && (holds <==> |ds| % 2 == 1)
    ensures var more := if holds == holds' then [] else if holds' then [AcquireDisplay] else [ReleaseDisplay];
      Alternates(ds + more) && (holds' <==> |ds + more| % 2 == 1)
  {
  }

  /** For any events in any order, the machine acquires and releases in turn, and
      the last request is an acquire exactly while it holds the display. */
  lemma {:induction false} AcquireReleaseAlternate(ops: seq<Op>)
    ensures Sane(Run(ops).0) && Alternates(Display(Run(ops).1))
    ensures HoldsDisplay(Run(ops).0) <==> |Display(Run(ops).1)| % 2 == 1
  {
    if ops != [] {
      var front, op := ops[..|ops| - 1], ops[|ops| - 1];
      AcquireReleaseAlternate(front);
      var (s, done) := Run(front);
      StepDisplay(s, op);
      DisplayAppend(done, Step(s, op).1);
      AlternatesOn(Display(done), HoldsDisplay(s), HoldsDisplay(Step(s, op).0));
    }
  }
}
