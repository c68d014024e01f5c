/** One display, two protocols: the arbiter, and every interleaving of the Miracast
    sink's loop with the castr connection handler. */
module Screen {
  import opened Common
  import L = Lifecycle

  datatype Owner = Idle | Castr | Miracast

  function Acquired(o: Owner, who: Owner): (Owner, bool) {
    if o == Idle || o == who then (who, true) else (o, false)
  }

  function Released(o: Owner, who: Owner): Owner { if o == who then Idle else o }

  class DisplayArbiter {
    var owner: Owner

    constructor ()
      ensures owner == Idle
    {
      owner := Idle;
    }

    method TryAcquire(who: Owner) returns (granted: bool)
      modifies this
      ensures (owner, granted) == Acquired(old(owner), who)
    {
      if owner == Idle || owner == who {
        owner := who;
        granted := true;
      } else {
        granted := false;
      }
    }

    method Release(who: Owner)
      modifies this
      ensures owner == Released(old(owner), who)
    {
      if owner == who { owner := Idle; }
    }
  }

  /** A call on the arbiter, by either thread. */
  datatype Call = Try(who: Owner) | Free(who: Owner)

  /** The owner after some calls, and what each of them was told. */
  function Calls(o: Owner, calls: seq<Call>): (Owner, seq<bool>) {
    if calls == [] then (o, [])
    else
      var (before, told) := Calls(o, calls[..|calls| - 1]);
      match calls[|calls| - 1]
      case Try(who) => var (after, granted) := Acquired(before, who); (after, told + [granted])
      case Free(who) => (Released(before, who), told + [true])
  }

  /** Nobody is knocked off the screen. Over any calls by anyone, as long as the owner
      has not released it the display stays the owner's, every other caller is refused
      and the owner is granted. */
  lemma {:induction false} NoPreemption(o: Owner, calls: seq<Call>)
    requires o != Idle && Free(o) !in calls
    ensures Calls(o, calls).0 == o
    ensures forall k :: 0 <= k < |calls| && k < |Calls(o, calls).1| && calls[k].Try? ==>
              (Calls(o, calls).1[k] <==> calls[k].who == o)
    ensures |Calls(o, calls).1| == |calls|
  {
    if calls != [] {
      var front := calls[..|calls| - 1];
      assert forall c :: c in front ==> c in calls;
      assert calls[|calls| - 1] in calls;
      NoPreemption(o, front);
    }
  }

  /** The owner changes only by its own release: when the display is no longer its
      owner's, the owner released it at some point until which it had kept it. */
  lemma {:induction false} OwnerLetsGo(o: Owner, calls: seq<Call>) returns (k: nat)
    requires o != Idle && Calls(o, calls).0 != o
    ensures k < |calls| && calls[k] == Free(o) && Calls(o, calls[..k]).0 == o && Free(o) !in calls[..k]
  {
    var last := |calls| - 1;
    if Free(o) in calls[..last] {
      var at :| 0 <= at < last && calls[..last][at] == Free(o);
      k := FirstFree(o, calls, at);
    } else {
      NoPreemption(o, calls[..last]);
      k := last;
    }
  }

  lemma {:induction false} FirstFree(o: Owner, calls: seq<Call>, at: nat) returns (k: nat)
    requires o != Idle && at < |calls| && calls[at] == Free(o)
    ensures k < |calls| && calls[k] == Free(o) && Calls(o, calls[..k]).0 == o && Free(o) !in calls[..k]
  {
    if Free(o) in calls[..at] {
      var earlier :| 0 <= earlier < at && calls[..at][earlier] == Free(o);
      k := FirstFree(o, calls, earlier);
    } else {
      NoPreemption(o, calls[..at]);
      k := at;
    }
  }

  /** The display changing hands. */
  datatype Change = Got(who: Owner) | LetGo(who: Owner)

  function Changes(o: Owner, calls: seq<Call>): seq<Change> {
    if calls == [] then []
    else
      var front := calls[..|calls| - 1];
      var before, after := Calls(o, front).0, Calls(o, calls).0;
      if before == after then Changes(o, front)
      else Changes(o, front) + [if after == Idle then LetGo(before) else Got(after)]
  }

  predicate InTurn(changes: seq<Change>, i: nat)
    requires i < |changes|
  {
    if i % 2 == 0 then changes[i].Got? && changes[i].who != Idle else changes[i] == LetGo(changes[i - 1].who)
  }

  /** Somebody gets it, the same lets it go, and so on. */
  predicate TakeTurns(changes: seq<Change>) { forall i :: 0 <= i < |changes| ==> InTurn(changes, i) }

  /** Who has the display, by its changes alone. */
  function Holder(changes: seq<Change>): Owner {
    if changes != [] && changes[|changes| - 1].Got? then changes[|changes| - 1].who else Idle
  }

  /** From an idle display, whoever calls what and in whatever order: grants and releases
      take turns, each release by the one granted last, and a caller is refused exactly
      when the last of them was a grant to another. */
  lemma {:induction false} GrantsTakeTurns(calls: seq<Call>, who: Owner)
    ensures var changes := Changes(Idle, calls);
      && TakeTurns(changes) && Calls(Idle, calls).0 == Holder(changes)
      && (Calls(Idle, calls + [Try(who)]).1 == Calls(Idle, calls).1 + [Holder(changes) in {Idle, who}])
  {
    assert (calls + [Try(who)])[..|calls|] == calls;
    if calls != [] {
      var front := calls[..|calls| - 1];
      GrantsTakeTurns(front, who);
      var before, after := Calls(Idle, front).0, Calls(Idle, calls).0;
      if before != after { TurnsSnoc(Changes(Idle, front), before, after); }
    }
  }

  lemma TurnsSnoc(changes: seq<Change>, before: Owner, after: Owner)
    requires TakeTurns(changes) && before == Holder(changes) && (before == Idle || after == Idle) && before != after
    ensures var c := if after == Idle then LetGo(before) else Got(after);
      TakeTurns(changes + [c]) && Holder(changes + [c]) == after
  {
    var c := if after == Idle then LetGo(before) else Got(after);
    if changes != [] { assert InTurn(changes, |changes| - 1); }
    forall i | 0 <= i < |changes + [c]| ensures InTurn(changes + [c], i) {
      if i < |changes| { assert InTurn(changes, i); }
    }
  }

  // ---- the two threads --------------------------------------------------

  /** The sink's loop. `todo` is what is left of the lifecycle's decisions, applied
      one arbiter call at a time; `leaving` once a radio error ends the pass. */
  datatype Sink =
    | Serving(conn: bool, session: bool, held: bool, life: L.State, todo: seq<L.Action>, leaving: bool)
    | Stopped

  const NEW_SINK := Serving(false, false, false, L.FRESH, [], false)

  /** The castr handler: waiting for a sender, before and during `stream`, and on
      the way to the release every exit goes through. */
  datatype Handler = Accepting | Handshake | InStream | Finishing

  datatype World = World(owner: Owner, sink: Sink, handler: Handler, nowMs: nat, endedAt: nat)

  const START := World(Idle, NEW_SINK, Accepting, 0, 0)

  datatype Step =
    // the sink, between two calls on the arbiter
    | SinkAccepts(configured: bool)
    | PeerDisconnects
    | SessionEnds
    | OtherPeerDuringHold
    | RadioFails
    | SinkTicks
    | SinkStops
    | SinkApplies
    | SinkLeaves
    | SinkRestarts
    // the castr handler
    | SenderConnects
    | HandshakeEnds
    | SenderClaims
    | StreamEnds
    | HandlerReleases
    // time
    | Passes(ms: nat)

  predicate AtBoundary(s: Sink) { s.Serving? && s.todo == [] && !s.leaving }

  /** The lifecycle moves, and leaves actions to apply. */
  function Decides(s: Sink, moved: (L.State, seq<L.Action>)): Sink
    requires s.Serving?
  {
    s.(life := moved.0, todo := moved.1)
  }

  function Accepts(w: World, configured: bool): World
    requires AtBoundary(w.sink) && !w.sink.conn
  {
    var resuming := w.sink.life.phase == L.Holding;
    var (owner, granted) := if resuming then (w.owner, true) else Acquired(w.owner, Miracast);
    if !configured || !granted then w
    else w.(owner := owner,
            sink := Decides(w.sink.(held := true, conn := true, session := true),
                            L.On(w.sink.life, L.Connected, w.nowMs)))
  }

  function Ends(w: World): World
    requires AtBoundary(w.sink)
  {
    w.(sink := Decides(w.sink.(conn := false, session := false), L.On(w.sink.life, L.Ended, w.nowMs)),
       endedAt := if w.sink.life.phase == L.Streaming then w.nowMs else w.endedAt)
  }

  /** Carries out the first of the lifecycle's decisions. */
  function Applies(w: World): World
    requires w.sink.Serving? && w.sink.todo != []
  {
    var rest := w.sink.(todo := w.sink.todo[1..]);
    match w.sink.todo[0]
    case AcquireDisplay =>
      var (owner, granted) := Acquired(w.owner, Miracast);
      w.(owner := owner, sink := rest.(held := granted))
    case ReleaseDisplay =>
      if w.sink.held then w.(owner := Released(w.owner, Miracast), sink := rest.(held := false))
      else w.(sink := rest)
    case _ => w.(sink := rest)
  }

  /** One step of one thread; a step that is not possible changes nothing. */
  function Next(w: World, step: Step): World {
    match step
    case SinkAccepts(ok) => if AtBoundary(w.sink) && !w.sink.conn then Accepts(w, ok) else w
    case PeerDisconnects => if AtBoundary(w.sink) then Ends(w) else w
    case SessionEnds => if AtBoundary(w.sink) && w.sink.conn then Ends(w) else w
    case OtherPeerDuringHold =>
      if AtBoundary(w.sink) && w.sink.life.phase == L.Holding
      then w.(sink := Decides(w.sink, L.AbandonHold(w.sink.life))) else w
    case RadioFails =>
      if AtBoundary(w.sink)
      then w.(sink := Decides(w.sink, L.On(w.sink.life, L.RadioError, w.nowMs)).(leaving := true)) else w
    case SinkTicks =>
      if AtBoundary(w.sink) then w.(sink := Decides(w.sink, L.Tick(w.sink.life, w.nowMs))) else w
    case SinkStops =>
      if AtBoundary(w.sink)
      then w.(owner := if w.sink.held then Released(w.owner, Miracast) else w.owner, sink := Stopped) else w
    case SinkApplies => if w.sink.Serving? && w.sink.todo != [] then Applies(w) else w
    case SinkLeaves => if w.sink.Serving? && w.sink.todo == [] && w.sink.leaving then w.(sink := Stopped) else w
    case SinkRestarts => if w.sink.Stopped? then w.(sink := NEW_SINK) else w
    case SenderConnects => if w.handler.Accepting? then w.(handler := Handshake) else w
    case HandshakeEnds => if w.handler.Handshake? then w.(handler := Finishing) else w
    case SenderClaims =>
      if w.handler.Handshake? then
        var (owner, granted) := Acquired(w.owner, Castr);
        w.(owner := owner, handler := if granted then InStream else Finishing)
      else w
    case StreamEnds => if w.handler.InStream? then w.(handler := Finishing) else w
    case HandlerReleases =>
      if w.handler.Finishing? then w.(owner := Released(w.owner, Castr), handler := Accepting) else w
    case Passes(ms) => w.(nowMs := w.nowMs + ms)
  }

  function Run(steps: seq<Step>): World {
    if steps == [] then START else Next(Run(steps[..|steps| - 1]), steps[|steps| - 1])
  }

  // ---- the invariant ----------------------------------------------------

  /** What is left to apply: nothing that takes the display except right after a
      grant, and nothing that gives it up except while it is still held. */
  predicate TodoOk(s: Sink)
    requires s.Serving?
  {
    && (forall i :: 0 < i < |s.todo| ==> !s.todo[i].AcquireDisplay? && !s.todo[i].ReleaseDisplay?)
    && (s.todo != [] && s.todo[0].AcquireDisplay? ==> s.held && L.HoldsDisplay(s.life))
    && (s.held <==> L.HoldsDisplay(s.life) || (s.todo != [] && s.todo[0].ReleaseDisplay?))
    && (s.todo != [] && s.todo[0].ReleaseDisplay? ==> !L.HoldsDisplay(s.life))
    && (s.leaving ==> s.life.phase == L.Advertising)
  }

  predicate SinkOk(w: World) {
    match w.sink
    case Stopped => w.owner != Miracast
    case Serving(conn, session, held, life, todo, leaving) =>
      && (w.owner == Miracast <==> held)
      && (!leaving ==> (conn <==> life.phase == L.Streaming)) && session == conn
      && (if life.phase == L.Holding then life.holdingSince == Some(w.endedAt) else life.holdingSince == None)
      && TodoOk(w.sink)
  }

  predicate Inv(w: World) {
    && SinkOk(w)
    && (w.handler.InStream? ==> w.owner == Castr)
    && (w.owner == Castr ==> w.handler.InStream? || w.handler.Finishing?)
    && w.endedAt <= w.nowMs
  }

  lemma AcceptsKeeps(w: World, configured: bool)
    requires Inv(w) && AtBoundary(w.sink) && !w.sink.conn
    ensures Inv(Accepts(w, configured))
  {
  }

  lemma EndsKeeps(w: World)
    requires Inv(w) && AtBoundary(w.sink)
    ensures Inv(Ends(w))
  {
  }

  lemma AppliesKeeps(w: World)
    requires Inv(w) && w.sink.Serving? && w.sink.todo != []
    ensures Inv(Applies(w))
  {
    assert forall i :: 0 <= i < |w.sink.todo| - 1 ==> w.sink.todo[1..][i] == w.sink.todo[i + 1];
  }

  lemma GivesUpKeeps(w: World, moved: (L.State, seq<L.Action>))
    requires Inv(w) && AtBoundary(w.sink)
    requires moved == L.AbandonHold(w.sink.life) || moved == L.Tick(w.sink.life, w.nowMs)
    ensures Inv(w.(sink := Decides(w.sink, moved)))
  {
  }

  lemma RadioFailureKeeps(w: World)
    requires Inv(w) && AtBoundary(w.sink)
    ensures Inv(w.(sink := Decides(w.sink, L.On(w.sink.life, L.RadioError, w.nowMs)).(leaving := true)))
  {
  }

  predicate SinkStep(step: Step) {
    step.SinkAccepts? || step.PeerDisconnects? || step.SessionEnds? || step.OtherPeerDuringHold? || step.RadioFails?
    || step.SinkTicks?
  }

  lemma SinkStepKeeps(w: World, step: Step)
    requires Inv(w) && SinkStep(step) && AtBoundary(w.sink)
    ensures Inv(Next(w, step))
  {
    match step
    case SinkAccepts(ok) => if !w.sink.conn { AcceptsKeeps(w, ok); }
    case PeerDisconnects => EndsKeeps(w);
    case SessionEnds => EndsKeeps(w);
    case OtherPeerDuringHold => GivesUpKeeps(w, L.AbandonHold(w.sink.life));
    case RadioFails => RadioFailureKeeps(w);
    case SinkTicks => GivesUpKeeps(w, L.Tick(w.sink.life, w.nowMs));
  }

  lemma OtherStepKeeps(w: World, step: Step)
    requires Inv(w) && !SinkStep(step)
    ensures Inv(Next(w, step))
  {
    if w.sink.Serving? && w.sink.todo != [] { AppliesKeeps(w); }
  }

  lemma NextKeeps(w: World, step: Step)
    requires Inv(w)
    ensures Inv(Next(w, step))
  {
    if !SinkStep(step) {
      OtherStepKeeps(w, step);
    } else if AtBoundary(w.sink) {
      SinkStepKeeps(w, step);
    }
  }

  lemma {:induction false} RunKeeps(steps: seq<Step>)
    ensures Inv(Run(steps))
  {
    if steps != [] {
      RunKeeps(steps[..|steps| - 1]);
      NextKeeps(Run(steps[..|steps| - 1]), steps[|steps| - 1]);
    }
  }

  /** Mutual exclusion, in every interleaving of the two threads: castr streams only
      while it owns the display; between the sink's steps the display is
      Miracast's exactly while the lifecycle streams or holds, an RTSP connection
      exists exactly while it streams, and once `serve` has returned - however it
      returned - the display is not Miracast's. */
  lemma OneScreen(steps: seq<Step>)
    ensures var w := Run(steps);
      && (w.handler.InStream? ==> w.owner == Castr)
      && (AtBoundary(w.sink) ==>
            && (w.owner == Miracast <==> w.sink.held && L.HoldsDisplay(w.sink.life))
            && (w.sink.held <==> L.HoldsDisplay(w.sink.life))
            && (w.sink.conn <==> w.sink.life.phase == L.Streaming) && w.sink.session == w.sink.conn)
      && (w.sink.Stopped? ==> w.owner != Miracast)
      && (w.sink.Serving? && L.HoldsDisplay(w.sink.life) ==> !w.handler.InStream?)
  {
    RunKeeps(steps);
  }

  /** Nobody keeps a screen they no longer use: with castr waiting for a sender and
      the sink between steps or out, an owned display is a live Miracast cast or
      hold. */
  lemma NothingLeaks(steps: seq<Step>)
    ensures var w := Run(steps);
      w.handler.Accepting? && w.owner != Idle ==>
        w.owner == Miracast && w.sink.Serving? && w.sink.held && (AtBoundary(w.sink) ==> L.HoldsDisplay(w.sink.life))
  {
    RunKeeps(steps);
  }

  /** A tick gives a held screen up only when thirty seconds have passed since the
      session ended, and then it does. */
  lemma HoldLasts(steps: seq<Step>)
    requires AtBoundary(Run(steps).sink) && Run(steps).sink.life.phase == L.Holding
    ensures var w := Run(steps);
      L.ReleaseDisplay in Next(w, SinkTicks).sink.todo <==> w.nowMs >= w.endedAt + L.HOLD_MS
  {
    RunKeeps(steps);
  }

  /** A peer back within the hold finds the screen still its own: no arbiter call
      can have gone the other way. */
  lemma ReturningPeerResumes(steps: seq<Step>)
    requires AtBoundary(Run(steps).sink) && Run(steps).sink.life.phase == L.Holding
    ensures var w := Run(steps);
      && w.owner == Miracast && Acquired(w.owner, Castr) == (Miracast, false)
      && var w' := Next(w, SinkAccepts(true));
         w'.sink.conn && w'.sink.life.phase == L.Streaming && w'.owner == Miracast
  {
    RunKeeps(steps);
  }

  // ---- who gets the screen, and that it comes free ----------------------

  /** The sink carries its decisions out, undisturbed. */
  function Settle(w: World): World
    decreases if w.sink.Serving? then |w.sink.todo| else 0
  {
    if w.sink.Serving? && w.sink.todo != [] then Settle(Next(w, SinkApplies)) else w
  }

  lemma SettleOne(w: World)
    ensures Settle(w) == if w.sink.Serving? && w.sink.todo != [] then Settle(Applies(w)) else w
  {
  }

  /** Between two steps with Miracast on the screen. */
  predicate Casting(w: World) {
    w.owner == Miracast && w.sink == Serving(true, true, true, L.State(L.Streaming, None), [], false)
  }

  lemma AcceptSettles(w: World, configured: bool)
    requires Inv(w) && AtBoundary(w.sink) && !w.sink.conn
    ensures var w1 := Settle(Next(w, SinkAccepts(configured)));
      if configured && w.owner != Castr then Casting(w1) && w1 == w.(owner := Miracast, sink := w1.sink) else w1 == w
  {
    hide Settle;
    var taken := Next(w, SinkAccepts(configured));
    SettleOne(taken);
    if taken.sink.todo != [] {
      var one := Applies(taken);
      SettleOne(one);
      if one.sink.todo != [] { SettleOne(Applies(one)); }
    }
  }

  /** A peer whose network comes up gets the screen exactly when castr does not have it,
      from advertising as from a hold; refused, it changes nothing. */
  lemma AcceptExactly(steps: seq<Step>, configured: bool)
    requires AtBoundary(Run(steps).sink) && !Run(steps).sink.conn
    ensures var w := Run(steps);
      var w1 := Settle(Next(w, SinkAccepts(configured)));
      if configured && w.owner != Castr then Casting(w1) && w1 == w.(owner := Miracast, sink := w1.sink) else w1 == w
  {
    hide Settle;
    RunKeeps(steps);
    AcceptSettles(Run(steps), configured);
  }

  /** A castr sender gets it exactly when Miracast does not have it; refused, it is on its
      way out with the screen untouched. */
  lemma ClaimExactly(steps: seq<Step>)
    requires Run(steps).handler.Handshake?
    ensures var w := Run(steps);
      Next(w, SenderClaims) == if w.owner != Miracast then w.(owner := Castr, handler := InStream)
                               else w.(handler := Finishing)
  {
    RunKeeps(steps);
  }

  /** A stream that ends frees it. */
  lemma StreamFrees(steps: seq<Step>)
    requires Run(steps).handler.InStream?
    ensures var w := Run(steps);
      Next(Next(w, StreamEnds), HandlerReleases) == w.(owner := Idle, handler := Accepting)
  {
    RunKeeps(steps);
  }

  /** A session that ends starts a hold: the screen stays, the viewer is told. */
  lemma EndHolds(steps: seq<Step>)
    requires Casting(Run(steps))
    ensures var w := Run(steps);
      var w1 := Settle(Next(w, SessionEnds));
      && L.ShowReconnecting in Next(w, SessionEnds).sink.todo && Settle(Next(w, PeerDisconnects)) == w1
      && w1 == w.(sink := Serving(false, false, true, L.State(L.Holding, Some(w.nowMs)), [], false), endedAt := w.nowMs)
  {
    RunKeeps(steps);
  }

  /** A hold given up, for another peer or after thirty seconds, frees it. */
  lemma HoldFrees(steps: seq<Step>)
    requires AtBoundary(Run(steps).sink) && Run(steps).sink.life.phase == L.Holding
    ensures var w := Run(steps);
      var free := w.(owner := Idle, sink := NEW_SINK);
      && Settle(Next(w, OtherPeerDuringHold)) == free
      && Settle(Next(w, SinkTicks)) == if w.nowMs >= w.endedAt + 30_000 then free else w
  {
    RunKeeps(steps);
  }

  lemma FailureSettles(w: World)
    requires Inv(w) && AtBoundary(w.sink)
    ensures var failed := Next(w, RadioFails);
      && multiset(failed.sink.todo)[L.RebuildGroup] == 1
      && Settle(failed) == w.(owner := if w.owner == Miracast then Idle else w.owner,
                              sink := failed.sink.(held := false, todo := []))
  {
    hide Settle;
    var failed := Next(w, RadioFails);
    SettleOne(failed);
    var one := Applies(failed);
    SettleOne(one);
    if L.HoldsDisplay(w.sink.life) {
      assert failed.sink.todo == [L.ReleaseDisplay, L.RebuildGroup, L.ClearOverlay];
      var two := Applies(one);
      SettleOne(two);
      SettleOne(Applies(two));
    } else {
      assert failed.sink.todo == [L.RebuildGroup];
    }
  }

  /** A radio error, whenever it comes, frees the screen of Miracast, asks once for the
      group to be rebuilt, and the next pass starts afresh. */
  lemma RadioRecovers(steps: seq<Step>)
    requires AtBoundary(Run(steps).sink)
    ensures var w := Run(steps);
      var failed := Next(w, RadioFails);
      var out := Next(Settle(failed), SinkLeaves);
      && multiset(failed.sink.todo)[L.RebuildGroup] == 1
      && out == w.(owner := if w.owner == Miracast then Idle else w.owner, sink := Stopped)
      && Next(out, SinkRestarts).sink == NEW_SINK
  {
    hide Settle;
    RunKeeps(steps);
    FailureSettles(Run(steps));
  }
}
