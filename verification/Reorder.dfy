/** The sink's reordering window over 16-bit sequence numbers (comparison in the
    style of RFC 1982, section 3.2). */
module Reorder {
  import opened Common
  import opened Rtp

  const HALF16: nat := 0x8000

  predicate SeqGe(a: u16, b: u16) { Sub16(a, b) < HALF16 }

  /** The value of a window between two calls. */
  datatype State = State(window: nat, held: seq<Packet>, next: Option<u16>, lost: nat)

  function Fresh(window: nat): State { State(window, [], None, 0) }

  predicate Holds(held: seq<Packet>, q: u16) { exists i :: 0 <= i < |held| && held[i].sequence == q }

  /** Already delivered, or already held. */
  predicate Refused(s: State, q: u16) {
    (s.next.Some? && !SeqGe(q, s.next.value)) || Holds(s.held, q)
  }

  function Slot(held: seq<Packet>, q: u16): (r: nat)
    ensures r <= |held|
  {
    if held == [] || SeqGe(held[0].sequence, q) then 0 else 1 + Slot(held[1..], q)
  }

  function Inserted(s: State, p: Packet): State {
    var i := Slot(s.held, p.sequence);
    s.(held := Splice(s.held, i, p))
  }

  /** The head cannot go yet: there is a gap, and room to wait. */
  predicate Waits(s: State)
    requires s.held != []
  {
    s.next.Some? && s.held[0].sequence != s.next.value && |s.held| <= s.window
  }

  /** What releasing the head gives up on. */
  function Skipped(s: State): nat
    requires s.held != []
  {
    if s.next.Some? && s.held[0].sequence != s.next.value then Max(Sub16(s.held[0].sequence, s.next.value), 1) else 0
  }

  function Release(s: State): State
    requires s.held != []
  {
    s.(held := s.held[1..], next := Some(Next16(s.held[0].sequence)), lost := s.lost + Skipped(s))
  }

  function Drain(s: State): (State, seq<Packet>)
    decreases |s.held|
  {
    if s.held == [] || Waits(s) then (s, [])
    else var (s', out) := Drain(Release(s)); (s', [s.held[0]] + out)
  }

  function AfterPush(s: State, p: Packet): (State, seq<Packet>) {
    if Refused(s, p.sequence) then (s, []) else Drain(Inserted(s, p))
  }

  function AfterFlush(s: State): (State, seq<Packet>) {
    (s.(held := [], next := if s.held == [] then s.next else Some(Next16(s.held[|s.held| - 1].sequence))), s.held)
  }

  class ReorderWindow {
    const window: nat
    var held: seq<Packet>
    var next: Option<u16>
    var lost: nat

    ghost function Value(): State
      reads this
    {
      State(window, held, next, lost)
    }

    constructor (window: nat)
      ensures Value() == Fresh(window)
    {
      this.window := window;
      held, next, lost := [], None, 0;
    }

    method IsHeld(q: u16) returns (r: bool)
      ensures r == Holds(held, q)
    {
      for i := 0 to |held|
        invariant forall k :: 0 <= k < i ==> held[k].sequence != q
      {
        if held[i].sequence == q { return true; }
      }
      r := false;
    }

    method Locate(q: u16) returns (i: nat)
      ensures i == Slot(held, q)
    {
      i := 0;
      while i < |held| && !SeqGe(held[i].sequence, q)
        invariant i <= |held| && i + Slot(held[i..], q) == Slot(held, q)
      {
        assert held[i..][1..] == held[i + 1..];
        i := i + 1;
      }
    }

    method Push(p: Packet) returns (out: seq<Packet>)
      modifies this
      ensures (Value(), out) == AfterPush(old(Value()), p)
    {
      var q := p.sequence;
      var dup := IsHeld(q);
      if next.Some? {
        if !SeqGe(q, next.value) || dup { return []; }
      } else if dup {
        return [];
      }
      var pos := Locate(q);
      held := held[..pos] + [p] + held[pos..];
      out := DrainHead();
    }

    /** The releasing loop inside `push`. */
    method DrainHead() returns (out: seq<Packet>)
      modifies this
      ensures (Value(), out) == Drain(old(Value()))
    {
      hide Drain, Sub16, Next16;
      out := [];
      ghost var start := Value();
      assert out + Drain(start).1 == Drain(start).1;
      while held != []
        invariant Drain(start).0 == Drain(Value()).0
        invariant Drain(start).1 == out + Drain(Value()).1
        decreases |held|
      {
        ghost var before, done := Value(), out;
        var head := held[0];
        if next.Some? && head.sequence != next.value {
          if |held| <= window { break; }
          lost := lost + Max(Sub16(head.sequence, next.value), 1);
        }
        held := held[1..];
        next := Some(Next16(head.sequence));
        out := out + [head];
        assert Value() == Release(before);
        DrainUnfolds(before);
        Reassociate(done, [head], Drain(Value()).1);
      }
      DrainStops(Value());
      assert out + [] == out;
    }

    method Flush() returns (out: seq<Packet>)
      modifies this
      ensures (Value(), out) == AfterFlush(old(Value()))
    {
      out := held;
      held := [];
      if out != [] { next := Some(Next16(out[|out| - 1].sequence)); }
    }
  }

  // ---- the window's own invariant, for any input ------------------------

  /** Strictly ascending forward distances from `origin`, all under half. */
  predicate Ascends(held: seq<Packet>, origin: u16) {
    && (forall i :: 0 <= i < |held| ==> SeqGe(held[i].sequence, origin))
    && forall i, j :: 0 <= i < j < |held| ==> Sub16(held[i].sequence, origin) < Sub16(held[j].sequence, origin)
  }

  /** Between calls: nothing is held before the first delivery; afterwards at most
      `window` packets, sorted, ahead of `next` by less than half, and the head is
      not deliverable. */
  predicate Tidy(s: State) {
    && (s.next.None? ==> s.held == [])
    && (s.next.Some? ==>
          Ascends(s.held, s.next.value) && |s.held| <= s.window
          && (s.held != [] ==> s.held[0].sequence != s.next.value))
  }

  /** Distances add up within the half range. */
  lemma Distance16(a: u16, b: u16, origin: u16)
    requires SeqGe(a, origin) && SeqGe(b, origin)
    ensures SeqGe(a, b) <==> Sub16(a, origin) >= Sub16(b, origin)
    ensures a == b <==> Sub16(a, origin) == Sub16(b, origin)
    ensures Sub16(a, origin) >= Sub16(b, origin) ==> Sub16(a, b) == Sub16(a, origin) - Sub16(b, origin)
    ensures Sub16(a, origin) > Sub16(b, origin) ==> Sub16(a, Next16(b)) == Sub16(a, origin) - Sub16(b, origin) - 1
  {
    var d := Sub16(a, origin) - Sub16(b, origin);
    assert Sub16(a, b) == if d >= 0 then d else d + 0x1_0000;
    assert d > 0 ==> Sub16(a, Next16(b)) == d - 1;
  }

  lemma {:induction false} SlotIsFirst(held: seq<Packet>, q: u16)
    ensures var i := Slot(held, q);
      && (forall j :: 0 <= j < i ==> !SeqGe(held[j].sequence, q))
      && (i < |held| ==> SeqGe(held[i].sequence, q))
  {
    if held != [] && !SeqGe(held[0].sequence, q) { SlotIsFirst(held[1..], q); }
  }

  lemma InsertAscends(s: State, p: Packet, origin: u16)
    requires Ascends(s.held, origin) && SeqGe(p.sequence, origin) && !Holds(s.held, p.sequence)
    ensures Ascends(Inserted(s, p).held, origin)
  {
    hide Sub16, Next16, SeqGe, Slot;
    var q := p.sequence;
    var i := Slot(s.held, q);
    SlotIsFirst(s.held, q);
    forall j | 0 <= j < |s.held|
      ensures if j < i then Sub16(s.held[j].sequence, origin) < Sub16(q, origin)
              else Sub16(q, origin) < Sub16(s.held[j].sequence, origin)
    {
      Distance16(s.held[j].sequence, q, origin);
      if i < |s.held| { Distance16(s.held[i].sequence, q, origin); }
    }
    SpliceAt(s.held, i, p);
  }

  lemma ReleaseAscends(s: State, origin: u16)
    requires s.held != [] && Ascends(s.held, origin)
    ensures Ascends(Release(s).held, Release(s).next.value)
  {
    var b := s.held[0].sequence;
    forall i | 1 <= i < |s.held|
      ensures Sub16(s.held[i].sequence, Next16(b)) == Sub16(s.held[i].sequence, origin) - Sub16(b, origin) - 1
    {
      Distance16(s.held[i].sequence, b, origin);
    }
  }

  /** Forward distance covered from `from` by delivering `out`: for each packet, the
      numbers skipped to reach it, and itself. */
  function Span(from: u16, out: seq<Packet>): nat
    decreases |out|
  {
    if out == [] then 0 else Sub16(out[0].sequence, from) + 1 + Span(Next16(out[0].sequence), out[1..])
  }

  function NextAfter(from: u16, out: seq<Packet>): u16 {
    if out == [] then from else Next16(out[|out| - 1].sequence)
  }

  /** Every step forward is under half the number space. */
  predicate ShortSteps(from: u16, out: seq<Packet>)
    decreases |out|
  {
    out == [] || (SeqGe(out[0].sequence, from) && ShortSteps(Next16(out[0].sequence), out[1..]))
  }

  /** Draining a sorted window leaves it tidy and delivers a prefix of it. */
  lemma {:induction false} DrainTidies(s: State)
    requires s.next.Some? && Ascends(s.held, s.next.value)
    ensures var (s', out) := Drain(s);
      && Tidy(s') && s'.window == s.window && s'.next == Some(NextAfter(s.next.value, out))
      && s.held == out + s'.held
    decreases |s.held|
  {
    hide Drain, Ascends, Sub16, Next16, Skipped;
    if s.held == [] || Waits(s) {
      DrainStops(s);
      StopsTidy(s);
    } else {
      ReleaseAscends(s, s.next.value);
      DrainTidies(Release(s));
      var (s', rest) := Drain(Release(s));
      DrainUnfolds(s);
      NextAfterCons(s.held[0], rest, s.next.value);
      Reassociate([s.held[0]], rest, s'.held);
      assert s.held == [s.held[0]] + s.held[1..];
    }
  }

  lemma StopsTidy(s: State)
    requires s.next.Some? && Ascends(s.held, s.next.value) && (s.held == [] || Waits(s))
    ensures Tidy(s) && NextAfter(s.next.value, []) == s.next.value
  {
  }

  lemma DrainUnfolds(s: State)
    requires s.held != [] && !Waits(s)
    ensures Drain(s) == (Drain(Release(s)).0, [s.held[0]] + Drain(Release(s)).1)
  {
  }

  lemma DrainStops(s: State)
    requires s.held == [] || Waits(s)
    ensures Drain(s) == (s, [])
  {
  }

  lemma NextAfterCons(p: Packet, rest: seq<Packet>, from: u16)
    ensures NextAfter(from, [p] + rest) == NextAfter(Next16(p.sequence), rest)
  {
  }

  /** Releasing the head passes over as many numbers as it counts lost, and itself. */
  lemma SkippedIs(s: State)
    requires s.next.Some? && s.held != []
    ensures Skipped(s) == Sub16(s.held[0].sequence, s.next.value)
  {
  }

  lemma AccountsCons(s: State, rest: seq<Packet>, lost: nat)
    requires s.next.Some? && s.held != [] && SeqGe(s.held[0].sequence, s.next.value) && lost >= Release(s).lost
    requires Span(Release(s).next.value, rest) == |rest| + (lost - Release(s).lost)
    requires ShortSteps(Release(s).next.value, rest)
    ensures var out := [s.held[0]] + rest;
      lost >= s.lost && Span(s.next.value, out) == |out| + (lost - s.lost) && ShortSteps(s.next.value, out)
  {
    hide Sub16, Next16, SeqGe, Skipped;
    SkippedIs(s);
    assert ([s.held[0]] + rest)[1..] == rest;
  }

  /** What a drain passes over is either delivered or counted lost, in short steps. */
  lemma {:induction false} DrainAccounts(s: State)
    requires s.next.Some? && Ascends(s.held, s.next.value)
    ensures var (s', out) := Drain(s);
      && s'.lost >= s.lost && Span(s.next.value, out) == |out| + (s'.lost - s.lost)
      && ShortSteps(s.next.value, out)
    decreases |s.held|
  {
    hide Drain, Sub16, Next16, Skipped;
    if s.held == [] || Waits(s) {
      DrainStops(s);
    } else {
      ReleaseAscends(s, s.next.value);
      DrainAccounts(Release(s));
      DrainUnfolds(s);
      AccountsCons(s, Drain(Release(s)).1, Drain(Release(s)).0.lost);
    }
  }

  // ---- runs without a flush ---------------------------------------------

  datatype Log = Log(s: State, arrived: seq<Packet>, refused: seq<Packet>, out: seq<Packet>)

  function Start(window: nat): Log { Log(Fresh(window), [], [], []) }

  function Step(l: Log, p: Packet): Log {
    var (s', out) := AfterPush(l.s, p);
    Log(s', l.arrived + [p], if Refused(l.s, p.sequence) then l.refused + [p] else l.refused, l.out + out)
  }

  function Run(l: Log, ps: seq<Packet>): Log {
    if ps == [] then l else Step(Run(l, ps[..|ps| - 1]), ps[|ps| - 1])
  }

  /** Position of delivery `i` on the unwrapped number line that starts at the
      first delivered number. */
  function Unwrapped(out: seq<Packet>, i: nat): nat
    requires i < |out|
  {
    if i == 0 then out[0].sequence
    else Unwrapped(out, i - 1) + 1 + Sub16(out[i].sequence, Next16(out[i - 1].sequence))
  }

  /** The distance from the first delivery to `next` is deliveries plus losses. */
  predicate Accounted(out: seq<Packet>, next: Option<u16>, lost: nat) {
    if out == [] then next.None? && lost == 0
    else
      && next == Some(Next16(out[|out| - 1].sequence))
      && Unwrapped(out, |out| - 1) + 1 - Unwrapped(out, 0) == |out| + lost
  }

  /** Each delivery is ahead of the one before it, by less than half the number space. */
  predicate Forward(out: seq<Packet>) {
    forall i :: 0 < i < |out| ==> SeqGe(out[i].sequence, Next16(out[i - 1].sequence))
  }

  predicate Conserves(l: Log) {
    && Tidy(l.s) && Accounted(l.out, l.s.next, l.s.lost) && Forward(l.out)
    && multiset(l.arrived) == multiset(l.out) + multiset(l.s.held) + multiset(l.refused)
  }

  lemma {:induction false} UnwrappedPrefix(a: seq<Packet>, b: seq<Packet>, i: nat)
    requires i < |a|
    ensures Unwrapped(a + b, i) == Unwrapped(a, i)
  {
    if i > 0 { UnwrappedPrefix(a, b, i - 1); }
  }

  /** Delivering more moves the unwrapped end by the span of what is added. */
  lemma {:induction false} UnwrappedAppend(a: seq<Packet>, b: seq<Packet>)
    requires a != []
    ensures Unwrapped(a + b, |a + b| - 1) == Unwrapped(a, |a| - 1) + Span(Next16(a[|a| - 1].sequence), b)
    decreases |b|
  {
    hide Sub16, Next16;
    if b == [] {
      assert a + b == a;
    } else {
      var a' := a + [b[0]];
      UnwrappedPrefix(a, [b[0]], |a| - 1);
      UnwrappedAppend(a', b[1..]);
      assert a' + b[1..] == a + b;
    }
  }

  lemma PushTidies(s: State, p: Packet)
    requires Tidy(s) && !Refused(s, p.sequence) && s.next.Some?
    ensures var (s', out) := AfterPush(s, p);
      && Tidy(s') && s'.window == s.window && s'.next == Some(NextAfter(s.next.value, out))
      && s'.lost >= s.lost && Span(s.next.value, out) == |out| + (s'.lost - s.lost) && ShortSteps(s.next.value, out)
      && multiset(s.held) + multiset{p} == multiset(out) + multiset(s'.held)
  {
    InsertAscends(s, p, s.next.value);
    DrainTidies(Inserted(s, p));
    DrainAccounts(Inserted(s, p));
    InsertedBag(s, p);
  }

  /** The very first packet goes straight through. */
  lemma FirstPush(s: State, p: Packet)
    requires Tidy(s) && s.next.None?
    ensures AfterPush(s, p) == (s.(held := [], next := Some(Next16(p.sequence))), [p])
  {
    var i := Inserted(s, p);
    assert i.held == [p];
    DrainUnfolds(i);
    assert Drain(Release(i)) == (Release(i), []);
    assert [p] + [] == [p];
  }

  lemma AccountedAppend(out: seq<Packet>, more: seq<Packet>, lost: nat, lostMore: nat)
    requires out != [] && Accounted(out, Some(Next16(out[|out| - 1].sequence)), lost)
    requires Span(Next16(out[|out| - 1].sequence), more) == |more| + lostMore
    ensures Accounted(out + more, Some(NextAfter(Next16(out[|out| - 1].sequence), more)), lost + lostMore)
  {
    UnwrappedAppend(out, more);
    UnwrappedPrefix(out, more, 0);
  }

  /** Short steps from behind what is delivered keep it all going forward. */
  lemma {:induction false} ForwardAppend(out: seq<Packet>, more: seq<Packet>)
    requires out != [] && Forward(out) && ShortSteps(Next16(out[|out| - 1].sequence), more)
    ensures Forward(out + more)
    decreases |more|
  {
    if more == [] {
      assert out + more == out;
    } else {
      ForwardAppend(out + [more[0]], more[1..]);
      assert (out + [more[0]]) + more[1..] == out + more;
    }
  }

  lemma BagsMove(arrived: seq<Packet>, out: seq<Packet>, held: seq<Packet>, refused: seq<Packet>,
                 p: Packet, more: seq<Packet>, held': seq<Packet>)
    requires multiset(arrived) == multiset(out) + multiset(held) + multiset(refused)
    requires multiset(held) + multiset{p} == multiset(more) + multiset(held')
    ensures multiset(arrived + [p]) == multiset(out + more) + multiset(held') + multiset(refused)
  {
    calc {
      multiset(arrived + [p]);
      multiset(out) + multiset(refused) + (multiset(held) + multiset{p});
      multiset(out) + multiset(refused) + (multiset(more) + multiset(held'));
    }
  }

  lemma StepAfterFirst(l: Log, p: Packet)
    requires Conserves(l) && l.out != [] && !Refused(l.s, p.sequence)
    ensures Conserves(Step(l, p))
  {
    var (s', out) := AfterPush(l.s, p);
    PushTidies(l.s, p);
    AccountedAppend(l.out, out, l.s.lost, s'.lost - l.s.lost);
    ForwardAppend(l.out, out);
    BagsMove(l.arrived, l.out, l.s.held, l.refused, p, out, s'.held);
  }

  lemma StepConserves(l: Log, p: Packet)
    requires Conserves(l)
    ensures Conserves(Step(l, p)) && Step(l, p).s.window == l.s.window && Step(l, p).arrived == l.arrived + [p]
  {
    if Refused(l.s, p.sequence) {
      assert l.out + [] == l.out;
    } else if l.s.next.None? {
      FirstPush(l.s, p);
      assert l.out + [p] == [p];
    } else {
      StepAfterFirst(l, p);
      PushTidies(l.s, p);
    }
  }

  lemma InsertedBag(s: State, p: Packet)
    ensures multiset(Inserted(s, p).held) == multiset(s.held) + multiset{p}
  {
    var i := Slot(s.held, p.sequence);
    assert s.held == s.held[..i] + s.held[i..];
  }

  /** RTP loss conservation, for every arrival sequence before a flush: the
      unwrapped distance from the first delivered number to `next` is the packets
      delivered plus those counted lost; every arrival is delivered, held or
      refused, once; and after each push the window is tidy. */
  lemma {:induction false} LossConservation(window: nat, ps: seq<Packet>)
    ensures Conserves(Run(Start(window), ps)) && Run(Start(window), ps).arrived == ps
    ensures Run(Start(window), ps).s.window == window
  {
    hide AfterPush, Step, Run, Conserves;
    if ps == [] {
      StartConserves(window);
    } else {
      var front, p := ps[..|ps| - 1], ps[|ps| - 1];
      LossConservation(window, front);
      StepConserves(Run(Start(window), front), p);
      RunLast(Start(window), ps);
      assert front + [p] == ps;
    }
  }

  lemma StartConserves(window: nat)
    ensures Conserves(Start(window)) && Run(Start(window), []) == Start(window)
  {
  }

  lemma RunLast(l: Log, ps: seq<Packet>)
    requires ps != []
    ensures Run(l, ps) == Step(Run(l, ps[..|ps| - 1]), ps[|ps| - 1])
  {
  }

  /** Going forward in short steps, a number comes again only a whole trip round the
      number space later, so never in one step. */
  lemma {:induction false} ForwardApart(out: seq<Packet>, i: nat, j: nat)
    requires Forward(out) && i < j < |out|
    ensures Unwrapped(out, i) < Unwrapped(out, j) <= Unwrapped(out, i) + (j - i) * HALF16
  {
    if i < j - 1 { ForwardApart(out, i, j - 1); }
  }

  lemma SameNumberApart(u: nat, v: nat)
    requires u < v && u % 0x1_0000 == v % 0x1_0000
    ensures v >= u + 0x1_0000
  {
  }

  /** In every run, each delivery lies ahead of every earlier one on the unwrapped line,
      each step under half the number space. So no position is delivered twice, and a
      sequence number only a whole trip round the number space later, with at least
      one delivery in between. */
  lemma DeliveredOnce(window: nat, ps: seq<Packet>, i: nat, j: nat)
    requires i < j < |Run(Start(window), ps).out|
    ensures var out := Run(Start(window), ps).out;
      && Unwrapped(out, i) < Unwrapped(out, j) <= Unwrapped(out, i) + (j - i) * HALF16
      && Unwrapped(out, i) % 0x1_0000 == out[i].sequence && Unwrapped(out, j) % 0x1_0000 == out[j].sequence
      && (out[i].sequence == out[j].sequence ==> Unwrapped(out, j) >= Unwrapped(out, i) + 0x1_0000 && j >= i + 2)
  {
    hide Step, Run, AfterPush;
    var out := Run(Start(window), ps).out;
    LossConservation(window, ps);
    ForwardApart(out, i, j);
    UnwrappedResidue(out, i);
    UnwrappedResidue(out, j);
    if out[i].sequence == out[j].sequence { SameNumberApart(Unwrapped(out, i), Unwrapped(out, j)); }
  }

  lemma {:induction false} UnwrappedResidue(out: seq<Packet>, j: nat)
    requires j < |out|
    ensures Unwrapped(out, j) % 0x1_0000 == out[j].sequence
  {
    if j > 0 {
      UnwrappedResidue(out, j - 1);
      ResidueStep(Unwrapped(out, j - 1), out[j - 1].sequence, out[j].sequence);
    }
  }

  lemma ResidueStep(u: nat, a: u16, b: u16)
    requires u % 0x1_0000 == a
    ensures (u + 1 + Sub16(b, Next16(a))) % 0x1_0000 == b
  {
    var d := b - a - 1;
    assert Sub16(b, Next16(a)) == if d >= 0 then d else d + 0x1_0000;
  }

  /** What is held goes forward in short steps. */
  lemma {:induction false} AscendsShort(held: seq<Packet>, origin: u16)
    requires Ascends(held, origin)
    ensures ShortSteps(origin, held)
    decreases |held|
  {
    hide Sub16, Next16, Ascends;
    if held != [] {
      var s := State(0, held, Some(origin), 0);
      ReleaseAscends(s, origin);
      AscendsShort(held[1..], Next16(held[0].sequence));
      HeadAhead(held, origin);
    }
  }

  lemma HeadAhead(held: seq<Packet>, origin: u16)
    requires Ascends(held, origin) && held != []
    ensures SeqGe(held[0].sequence, origin)
  {
  }

  /** At the end of any run a flush completes it: what was delivered and what comes out
      now go forward all the way, every packet that was not refused is among them,
      exactly as often as it arrived, and the window is empty behind the last. */
  lemma FlushCompletes(window: nat, ps: seq<Packet>)
    ensures var l := Run(Start(window), ps);
      var (s', rest) := AfterFlush(l.s);
      var all := l.out + rest;
      && Forward(all) && multiset(ps) == multiset(all) + multiset(l.refused)
      && s'.held == [] && s'.lost == l.s.lost
      && s'.next == if all == [] then None else Some(Next16(all[|all| - 1].sequence))
  {
    hide Step, Run, AfterPush, Sub16, Next16, Ascends;
    LossConservation(window, ps);
    var l := Run(Start(window), ps);
    if l.out == [] {
      assert l.out + l.s.held == [];
    } else {
      AscendsShort(l.s.held, l.s.next.value);
      ForwardAppend(l.out, l.s.held);
      if l.s.held == [] { assert l.out + l.s.held == l.out; }
    }
  }
}
