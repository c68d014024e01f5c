/** One V4L2 buffer queue over a driver that may answer anything. */
module V4l2Queue {
  import opened Common

  /** Compressed data goes in on one side, pictures come out on the other. */
  datatype Side = Output | Capture

  /** A buffer handed back, with what the driver left in its mapping. */
  datatype Dequeued = Dequeued(index: nat, bytesUsed: nat, timestampUs: nat, last: bool, mapping: seq<u8>)

  // ---- what the driver may answer ---------------------------------------

  datatype FormatInfo = FormatInfo(pixelFormat: nat, width: nat, height: nat, bytesPerLine: nat, sizeImage: nat)
  datatype Rect = Rect(left: int, top: int, width: nat, height: nat)
  datatype Event = SourceChange(resolution: bool) | EndOfStream | OtherEvent

  datatype Dequeue = Idle | Buffer(d: Dequeued) | EndOfSequence

  datatype IoError = IoError(einval: bool)

  datatype Answer =
    | Failed(einval: bool)
    | Fine
    | Polled(error: bool)
    | Dequeues(dequeue: Dequeue)
    | Happens(event: Option<Event>)
    | Format(format: FormatInfo)
    | Number(n: nat)
    | Compose(rect: Rect)
    | Caps(capabilities: nat, device: nat)
    | Listed(pixelFormat: Option<nat>)

  // ---- what happened between us and the driver --------------------------

  datatype Call =
    | Queued(side: Side, index: nat, bytesUsed: nat, timestampUs: nat)
    | Returned(side: Side, d: Dequeued)
    | Stopped(side: Side)
    | Freed(side: Side)
    | Touched(side: Side, index: nat)
    | Formatted(side: Side, format: FormatInfo)
    | Composed(side: Side, rect: Option<Rect>)
    | Declined(side: Side, index: nat)
    | Empty(side: Side, end: bool)
    | Told(side: Side, event: Option<Event>)

  /** A call that moves no buffer. */
  predicate Plain(c: Call) {
    c.Touched? || c.Formatted? || c.Composed? || c.Declined? || c.Empty? || c.Told?
  }

  /** What a dequeue that was answered leaves behind. */
  function Dequeueing(side: Side, q: Dequeue): Call {
    if q.Buffer? then Returned(side, q.d) else Empty(side, q.EndOfSequence?)
  }

  /** The buffers the driver holds. */
  function Held(trace: seq<Call>, side: Side): set<nat> {
    if trace == [] then {}
    else
      var before, c := Held(trace[..|trace| - 1], side), trace[|trace| - 1];
      if c.side != side then before
      else
        match c
        case Queued(_, i, _, _) => before + {i}
        case Returned(_, d) => before - {d.index}
        case Stopped(_) => {}
        case Freed(_) => {}
        case _ => before
  }

  /** The driver has returned only buffers it held. */
  predicate Honest(trace: seq<Call>) {
    trace == []
    || (var before, c := trace[..|trace| - 1], trace[|trace| - 1];
        Honest(before) && (c.Returned? ==> c.d.index in Held(before, c.side)))
  }

  /** The inputs given to the driver: their lengths and timestamps. */
  function Inputs(trace: seq<Call>): seq<(nat, nat)> {
    if trace == [] then []
    else
      var before, c := Inputs(trace[..|trace| - 1]), trace[|trace| - 1];
      if c.Queued? && c.side == Output then before + [(c.bytesUsed, c.timestampUs)] else before
  }

  /** What the capture side was set to, a format and the rectangle shown of it; and what
      the driver told of it. */
  datatype Setting = Coded(format: FormatInfo) | Shows(rect: Option<Rect>) | News(event: Event)

  /** The settings of the capture side and the news of it, oldest first. */
  function Settings(trace: seq<Call>): seq<Setting> {
    if trace == [] then []
    else
      var before, c := Settings(trace[..|trace| - 1]), trace[|trace| - 1];
      match c
      case Formatted(Capture, f) => before + [Coded(f)]
      case Composed(Capture, r) => before + [Shows(r)]
      case Told(Capture, Some(e)) => before + [News(e)]
      case _ => before
  }

  /** How capture buffers are to be read: whether they are of the first, provisional
      format, the format, and the rectangle to show. */
  datatype View = View(provisional: bool, coded: FormatInfo, visible: Rect)

  /** The rectangle asked for, or the whole frame without one. */
  function Visible(rect: Option<Rect>, coded: FormatInfo): Rect {
    if rect.Some? && rect.value.width > 0 && rect.value.height > 0 then rect.value
    else Rect(0, 0, coded.width, coded.height)
  }

  function Formats(settings: seq<Setting>): nat {
    if settings == [] then 0
    else Formats(settings[..|settings| - 1]) + if settings[|settings| - 1].Coded? then 1 else 0
  }

  /** What the settings come to. */
  function ViewBy(settings: seq<Setting>): View {
    if settings == [] then View(true, FormatInfo(0, 0, 0, 0, 0), Rect(0, 0, 0, 0))
    else
      var before := ViewBy(settings[..|settings| - 1]);
      match settings[|settings| - 1]
      case Coded(f) => before.(coded := f, provisional := Formats(settings) <= 1)
      case Shows(r) => before.(visible := Visible(r, before.coded))
      case News(_) => before
  }

  /** A source change that calls for a new capture queue. */
  const CHANGE: Setting := News(SourceChange(true))

  /** How often the driver told of one. */
  function Changes(settings: seq<Setting>): nat {
    if settings == [] then 0
    else Changes(settings[..|settings| - 1]) + if settings[|settings| - 1] == CHANGE then 1 else 0
  }

  /** The last one has not been followed by a new rectangle. */
  predicate Owes(settings: seq<Setting>) {
    settings != []
    && var s := settings[|settings| - 1];
       s == CHANGE || (!s.Shows? && Owes(settings[..|settings| - 1]))
  }

  /** The driver told that the stream is over. */
  predicate Ended(settings: seq<Setting>) { News(EndOfStream) in settings }

  /** No change told of in between is left without an answer. */
  predicate Heeds(before: seq<Setting>, after: seq<Setting>) {
    && Changes(before) <= Changes(after)
    && (Owes(after) ==> Owes(before) && Changes(after) == Changes(before))
  }

  lemma NewsSnoc(settings: seq<Setting>, s: Setting)
    ensures Changes(settings + [s]) == Changes(settings) + if s == CHANGE then 1 else 0
    ensures Owes(settings + [s]) <==> s == CHANGE || (!s.Shows? && Owes(settings))
    ensures Ended(settings + [s]) <==> Ended(settings) || s == News(EndOfStream)
    ensures s.News? ==> ViewBy(settings + [s]) == ViewBy(settings) && Formats(settings + [s]) == Formats(settings)
  {
    assert (settings + [s])[..|settings|] == settings;
  }

  function ViewOf(trace: seq<Call>): View { ViewBy(Settings(trace)) }

  /** A capture buffer the driver gave back, and how it was to be read then. */
  datatype Back = Back(d: Dequeued, view: View)

  /** The capture buffers the driver gave back. */
  function Outs(trace: seq<Call>): seq<Back> {
    if trace == [] then []
    else
      var front, c := trace[..|trace| - 1], trace[|trace| - 1];
      if c.Returned? && c.side == Capture then Outs(front) + [Back(c.d, ViewOf(front))] else Outs(front)
  }

  /** How often a capture buffer was asked for, and got an answer. */
  function Asked(trace: seq<Call>): nat {
    if trace == [] then 0
    else
      var c := trace[|trace| - 1];
      Asked(trace[..|trace| - 1]) + if (c.Returned? || c.Empty?) && c.side == Capture then 1 else 0
  }

  /** A sign that the capture side has no more to give until it is restarted: a buffer
      marked as the last one, a dequeue refused for good, or a buffer not taken back. */
  predicate Last(c: Call) {
    c.side == Capture && ((c.Returned? && c.d.last) || (c.Empty? && c.end) || c.Declined?)
  }

  /** How many such signs there were. */
  function Endings(trace: seq<Call>): nat {
    if trace == [] then 0 else Endings(trace[..|trace| - 1]) + if Last(trace[|trace| - 1]) then 1 else 0
  }

  /** We never touch the bytes of a buffer the driver holds, as long as it is honest. */
  predicate Safe(trace: seq<Call>) {
    trace == []
    || (var before, c := trace[..|trace| - 1], trace[|trace| - 1];
        Safe(before) && (c.Touched? && Honest(before) ==> c.index !in Held(before, c.side)))
  }

  lemma TraceSnoc(trace: seq<Call>, c: Call)
    ensures Honest(trace + [c]) <==> Honest(trace) && (c.Returned? ==> c.d.index in Held(trace, c.side))
    ensures Safe(trace + [c]) <==> Safe(trace) && (c.Touched? && Honest(trace) ==> c.index !in Held(trace, c.side))
    ensures forall side :: side != c.side ==> Held(trace + [c], side) == Held(trace, side)
    ensures c.Queued? ==> Held(trace + [c], c.side) == Held(trace, c.side) + {c.index}
    ensures c.Returned? ==> Held(trace + [c], c.side) == Held(trace, c.side) - {c.d.index}
    ensures Plain(c) ==> Held(trace + [c], c.side) == Held(trace, c.side)
    ensures c.Stopped? || c.Freed? ==> Held(trace + [c], c.side) == {}
    ensures Inputs(trace + [c]) ==
      if c.Queued? && c.side == Output then Inputs(trace) + [(c.bytesUsed, c.timestampUs)] else Inputs(trace)
    ensures Outs(trace + [c])
         == if c.Returned? && c.side == Capture then Outs(trace) + [Back(c.d, ViewOf(trace))] else Outs(trace)
    ensures Settings(trace + [c])
         == if c.side != Capture then Settings(trace)
            else if c.Formatted? then Settings(trace) + [Coded(c.format)]
            else if c.Composed? then Settings(trace) + [Shows(c.rect)]
            else if c.Told? && c.event.Some? then Settings(trace) + [News(c.event.value)]
            else Settings(trace)
    ensures Asked(trace + [c]) == Asked(trace) + if (c.Returned? || c.Empty?) && c.side == Capture then 1 else 0
    ensures Endings(trace + [c]) == Endings(trace) + if Last(c) then 1 else 0
  {
    assert (trace + [c])[..|trace|] == trace;
  }

  // ---- the driver -------------------------------------------------------

  /** The driver's next answer. */
  predicate Says(script: seq<Answer>, a: Answer) { script != [] && script[0] == a }

  /** What a dequeue is answered with next, if it is. */
  function Given(script: seq<Answer>): Option<Dequeue> {
    if script != [] && script[0].Dequeues? then Some(script[0].dequeue) else None
  }

  /** What it will answer after that. */
  function Rest(script: seq<Answer>): seq<Answer> { if script == [] then [] else script[1..] }

  /** The answers behind calls that were answered with more than a refusal. */
  function AnswersOf(trace: seq<Call>): seq<Answer> {
    if trace == [] then []
    else
      var before := AnswersOf(trace[..|trace| - 1]);
      match trace[|trace| - 1]
      case Queued(_, _, _, _) => before + [Fine]
      case Returned(_, d) => before + [Dequeues(Buffer(d))]
      case Stopped(_) => before + [Fine]
      case Formatted(_, f) => before + [Format(f)]
      case Composed(_, Some(r)) => before + [Compose(r)]
      case Declined(_, _) => before + [Failed(true)]
      case Empty(_, end) => before + [Dequeues(if end then EndOfSequence else Idle)]
      case Told(_, e) => before + [Happens(e)]
      case _ => before
  }

  /** `xs` is part of `ys`, in order. */
  predicate Sub(xs: seq<Answer>, ys: seq<Answer>) {
    xs == []
    || (ys != [] && (Sub(xs, ys[..|ys| - 1])
                     || (xs[|xs| - 1] == ys[|ys| - 1] && Sub(xs[..|xs| - 1], ys[..|ys| - 1]))))
  }

  lemma {:induction false} SubAppend(a: seq<Answer>, x: seq<Answer>, b: seq<Answer>, y: seq<Answer>)
    requires Sub(a, x) && Sub(b, y)
    ensures Sub(a + b, x + y)
    decreases |y|
  {
    if y == [] {
      assert a + b == a && x + y == x;
    } else {
      var y' := y[..|y| - 1];
      assert (x + y)[..|x + y| - 1] == x + y';
      if b == [] || Sub(b, y') {
        SubAppend(a, x, b, y');
      } else {
        SubAppend(a, x, b[..|b| - 1], y');
        assert (a + b)[..|a + b| - 1] == a + b[..|b| - 1];
      }
    }
  }

  lemma {:induction false} AnswersAppend(a: seq<Call>, b: seq<Call>)
    ensures AnswersOf(a + b) == AnswersOf(a) + AnswersOf(b)
  {
    if b == [] {
      assert a + b == a;
    } else {
      AnswersAppend(a, b[..|b| - 1]);
      assert (a + b)[..|a + b| - 1] == a + b[..|b| - 1];
    }
  }

  /** What is still to be answered, and what has happened. */
  datatype Past = Past(script: seq<Answer>, trace: seq<Call>)

  /** From one moment to a later one: the driver has answered from the front of its
      script, the trace has grown, and what it says was answered was, in that order. */
  predicate Onward(p: Past, q: Past) {
    && p.trace <= q.trace && |q.script| <= |p.script| && q.script == p.script[|p.script| - |q.script|..]
    && Sub(AnswersOf(q.trace[|p.trace|..]), p.script[..|p.script| - |q.script|])
  }

  lemma OnwardOn(p: Past, q: Past, r: Past)
    requires Onward(p, q) && Onward(q, r)
    ensures Onward(p, r)
  {
    var a, b := q.trace[|p.trace|..], r.trace[|q.trace|..];
    var x, y := p.script[..|p.script| - |q.script|], q.script[..|q.script| - |r.script|];
    assert r.trace[|p.trace|..] == a + b;
    assert p.script[..|p.script| - |r.script|] == x + y;
    AnswersAppend(a, b);
    SubAppend(AnswersOf(a), x, AnswersOf(b), y);
  }

  lemma {:induction false} OutsGrow(before: seq<Call>, after: seq<Call>)
    requires before <= after
    ensures Outs(before) <= Outs(after) && Settings(before) <= Settings(after)
    ensures Asked(before) <= Asked(after) && Endings(before) <= Endings(after)
    decreases |after|
  {
    if before != after { OutsGrow(before, after[..|after| - 1]); }
  }

  lemma OnwardStays(p: Past)
    ensures Onward(p, p)
  {
    assert p.trace[|p.trace|..] == [];
  }

  /** Moments follow each other. */
  lemma Moments()
    ensures forall p :: Onward(p, p)
    ensures forall p, q, r :: Onward(p, q) && Onward(q, r) ==> Onward(p, r)
    ensures forall p, q :: Onward(p, q) ==> |q.script| <= |p.script| && |Outs(p.trace)| <= |Outs(q.trace)|
  {
    forall p ensures Onward(p, p) { OnwardStays(p); }
    forall p, q, r | Onward(p, q) && Onward(q, r) ensures Onward(p, r) { OnwardOn(p, q, r); }
    forall p, q | Onward(p, q) ensures |Outs(p.trace)| <= |Outs(q.trace)| { OutsGrow(p.trace, q.trace); }
  }

  lemma Later(p: Past, q: Past)
    requires Onward(p, q)
    ensures |q.script| <= |p.script|
    ensures |Outs(p.trace)| <= |Outs(q.trace)| && |Settings(p.trace)| <= |Settings(q.trace)|
    ensures Asked(p.trace) <= Asked(q.trace) && Endings(p.trace) <= Endings(q.trace)
  {
    OutsGrow(p.trace, q.trace);
  }

  /** And what is counted only grows. */
  lemma Counted()
    ensures forall p, q :: Onward(p, q) ==>
      Asked(p.trace) <= Asked(q.trace) && Endings(p.trace) <= Endings(q.trace)
      && |Settings(p.trace)| <= |Settings(q.trace)|
  {
    forall p, q | Onward(p, q)
      ensures Asked(p.trace) <= Asked(q.trace) && Endings(p.trace) <= Endings(q.trace)
      ensures |Settings(p.trace)| <= |Settings(q.trace)|
    {
      OutsGrow(p.trace, q.trace);
    }
  }

  /** One answer, behind at most one call. */
  lemma Answered(script: seq<Answer>, trace: seq<Call>, calls: seq<Call>)
    requires AnswersOf(calls) == [] || (script != [] && AnswersOf(calls) == [script[0]])
    ensures Onward(Past(script, trace), Past(Rest(script), trace + calls))
  {
    var used := script[..|script| - |Rest(script)|];
    assert (trace + calls)[|trace|..] == calls;
    assert script != [] ==> used == [script[0]] && used[..0] == [];
  }

  lemma AnswerBehind(c: Call)
    ensures AnswersOf([c]) == (match c
      case Queued(_, _, _, _) => [Fine]
      case Returned(_, d) => [Dequeues(Buffer(d))]
      case Stopped(_) => [Fine]
      case Formatted(_, f) => [Format(f)]
      case Composed(_, Some(r)) => [Compose(r)]
      case Declined(_, _) => [Failed(true)]
      case Empty(_, end) => [Dequeues(if end then EndOfSequence else Idle)]
      case Told(_, e) => [Happens(e)]
      case _ => [])
  {
    assert [c][..0] == [];
  }

  /** Calls that happen without the driver. */
  lemma Unasked(script: seq<Answer>, trace: seq<Call>, side: Side, i: nat)
    ensures Onward(Past(script, trace), Past(script, trace + [Touched(side, i)]))
  {
    AnswerBehind(Touched(side, i));
    assert (trace + [Touched(side, i)])[|trace|..] == [Touched(side, i)];
  }

  /** The driver answers from a script: any script, so any behaviour. A call the script
      does not fit fails. */
  class Driver {
    var script: seq<Answer>
    var clock: seq<nat>
    ghost var trace: seq<Call>
    ghost var read: nat

    ghost function Moment(): Past
      reads this
    {
      Past(script, trace)
    }

    constructor (script: seq<Answer>, clock: seq<nat>)
      ensures this.script == script && trace == []
    {
      this.script, this.clock, trace, read := script, clock, [], 0;
    }

    method Next() returns (a: Answer)
      modifies this`script
      ensures !a.Failed? ==> old(script) != [] && script == old(script)[1..]
      ensures a == if old(script) == [] then Failed(false) else old(script)[0]
      ensures script == Rest(old(script)) && Onward(old(Moment()), Moment())
    {
      Answered(script, trace, []);
      assert trace + [] == trace;
      if script == [] { return Failed(false); }
      a := script[0];
      script := script[1..];
    }

    /** The time: it is kept as the last one read. */
    method Now() returns (t: nat)
      modifies this`clock, this`read
      ensures read == t && t == (if old(clock) == [] then 0 else old(clock)[0])
      ensures clock == (if old(clock) == [] then [] else old(clock)[1..])
    {
      t := if clock == [] then 0 else clock[0];
      clock, read := if clock == [] then [] else clock[1..], t;
    }

    method QBuf(side: Side, index: nat, bytesUsed: nat, timestampUs: nat) returns (r: Result<(), IoError>)
      modifies this`script, this`trace
      ensures Onward(old(Moment()), Moment())
      ensures r.Ok? ==> trace == old(trace) + [Queued(side, index, bytesUsed, timestampUs)]
      ensures r.Err? ==> trace == old(trace) + if r.error.einval then [Declined(side, index)] else []
      ensures script == Rest(old(script))
      ensures r.Ok? <==> Says(old(script), Fine)
      ensures r == Err(IoError(true)) <==> Says(old(script), Failed(true))
    {
      ghost var c := Queued(side, index, bytesUsed, timestampUs);
      AnswerBehind(c);
      AnswerBehind(Declined(side, index));
      if script != [] && script[0].Fine? { Answered(script, trace, [c]); }
      if script != [] && script[0] == Failed(true) { Answered(script, trace, [Declined(side, index)]); }
      var a := Next();
      if !a.Fine? {
        r := Err(IoError(a.Failed? && a.einval));
        trace := trace + if r.error.einval then [Declined(side, index)] else [];
        return;
      }
      trace := trace + [c];
      r := Ok(());
    }

    method DqBuf(side: Side) returns (r: Result<Dequeue, IoError>)
      modifies this`script, this`trace
      ensures Onward(old(Moment()), Moment()) && (r.Ok? ==> old(script) != [] && script == old(script)[1..])
      ensures trace == if r.Ok? then old(trace) + [Dequeueing(side, r.value)] else old(trace)
      ensures var q := Given(old(script)); if q.Some? then r == Ok(q.value) else r.Err?
    {
      if script != [] && script[0].Dequeues? {
        AnswerBehind(Dequeueing(side, script[0].dequeue));
        Answered(script, trace, [Dequeueing(side, script[0].dequeue)]);
      }
      var a := Next();
      if !a.Dequeues? { return Err(IoError(a.Failed? && a.einval)); }
      trace := trace + [Dequeueing(side, a.dequeue)];
      r := Ok(a.dequeue);
    }

    /** A call that only succeeds or fails: STREAMON, a subscription, mapping a buffer,
        exporting it. */
    method Do() returns (r: Result<(), IoError>)
      modifies this`script
      ensures Onward(old(Moment()), Moment())
    {
      hide Onward;
      var a := Next();
      r := if a.Fine? then Ok(()) else Err(IoError(a.Failed? && a.einval));
    }

    method StreamOff(side: Side) returns (r: Result<(), IoError>)
      modifies this`script, this`trace
      ensures Onward(old(Moment()), Moment()) && script == Rest(old(script))
      ensures trace == if r.Ok? then old(trace) + [Stopped(side)] else old(trace)
    {
      AnswerBehind(Stopped(side));
      if script != [] && script[0].Fine? { Answered(script, trace, [Stopped(side)]); }
      var a := Next();
      if !a.Fine? { return Err(IoError(a.Failed? && a.einval)); }
      trace := trace + [Stopped(side)];
      r := Ok(());
    }

    /** Asking for buffers frees those there were. */
    method ReqBufs(side: Side, count: nat) returns (r: Result<nat, IoError>)
      modifies this`script, this`trace
      ensures Onward(old(Moment()), Moment())
      ensures trace == if r.Ok? then old(trace) + [Freed(side)] else old(trace)
      ensures r.Ok? ==> Says(old(script), Number(r.value))
    {
      AnswerBehind(Freed(side));
      Answered(script, trace, [Freed(side)]);
      var a := Next();
      if !a.Number? { return Err(IoError(a.Failed? && a.einval)); }
      trace := trace + [Freed(side)];
      r := Ok(a.n);
    }

    /** A number the driver reports: a buffer's length, a control. */
    method Report() returns (r: Result<nat, IoError>)
      modifies this`script
      ensures Onward(old(Moment()), Moment())
    {
      hide Onward;
      var a := Next();
      r := if a.Number? then Ok(a.n) else Err(IoError(a.Failed? && a.einval));
    }

    method QueryCap() returns (r: Result<(nat, nat), IoError>)
      modifies this`script
      ensures Onward(old(Moment()), Moment()) && script == Rest(old(script))
      ensures r.Ok? ==> Says(old(script), Caps(r.value.0, r.value.1))
      ensures r.Err? ==> old(script) == [] || !old(script)[0].Caps?
    {
      hide Onward;
      var a := Next();
      r := if a.Caps? then Ok((a.capabilities, a.device)) else Err(IoError(a.Failed? && a.einval));
    }

    /** The format at some place of the driver's list, or nothing past its end. */
    method EnumFmt() returns (r: Result<Option<nat>, IoError>)
      modifies this`script
      ensures Onward(old(Moment()), Moment()) && script == Rest(old(script))
      ensures r == if old(script) != [] && old(script)[0].Listed? then Ok(old(script)[0].pixelFormat)
                   else Err(IoError(Says(old(script), Failed(true))))
    {
      hide Onward;
      var a := Next();
      r := if a.Listed? then Ok(a.pixelFormat) else Err(IoError(a.Failed? && a.einval));
    }

    /** The format a side has. */
    method GetFmt() returns (r: Result<FormatInfo, IoError>)
      modifies this`script
      ensures Onward(old(Moment()), Moment()) && (r.Ok? ==> Says(old(script), Format(r.value)))
    {
      hide Onward;
      var a := Next();
      r := if a.Format? then Ok(a.format) else Err(IoError(a.Failed? && a.einval));
    }

    /** Sets a format: what the driver accepted. */
    method SetFmt(side: Side) returns (r: Result<FormatInfo, IoError>)
      modifies this`script, this`trace
      ensures Onward(old(Moment()), Moment()) && (r.Ok? ==> Says(old(script), Format(r.value)))
      ensures trace == if r.Ok? then old(trace) + [Formatted(side, r.value)] else old(trace)
    {
      if script != [] && script[0].Format? {
        AnswerBehind(Formatted(side, script[0].format));
        Answered(script, trace, [Formatted(side, script[0].format)]);
      }
      var a := Next();
      if !a.Format? { return Err(IoError(a.Failed? && a.einval)); }
      trace := trace + [Formatted(side, a.format)];
      r := Ok(a.format);
    }

    /** The compose rectangle of the capture side, if the driver has one. */
    method Selection() returns (r: Option<Rect>)
      modifies this`script, this`trace
      ensures Onward(old(Moment()), Moment()) && trace == old(trace) + [Composed(Capture, r)]
    {
      ghost var c := if script != [] && script[0].Compose? then Composed(Capture, Some(script[0].rect))
                     else Composed(Capture, None);
      AnswerBehind(c);
      Answered(script, trace, [c]);
      var a := Next();
      r := if a.Compose? then Some(a.rect) else None;
      trace := trace + [Composed(Capture, r)];
    }

    /** What happened on the capture side since, if anything did. */
    method DqEvent() returns (r: Result<Option<Event>, IoError>)
      modifies this`script, this`trace
      ensures Onward(old(Moment()), Moment()) && (r.Ok? ==> old(script) != [] && script == old(script)[1..])
      ensures trace == if r.Ok? then old(trace) + [Told(Capture, r.value)] else old(trace)
      ensures if old(script) != [] && old(script)[0].Happens? then r == Ok(old(script)[0].event) else r.Err?
    {
      if script != [] && script[0].Happens? {
        AnswerBehind(Told(Capture, script[0].event));
        Answered(script, trace, [Told(Capture, script[0].event)]);
      }
      var a := Next();
      if !a.Happens? { return Err(IoError(a.Failed? && a.einval)); }
      trace := trace + [Told(Capture, a.event)];
      r := Ok(a.event);
    }

    method Poll() returns (r: Result<bool, IoError>)
      modifies this`script
      ensures Onward(old(Moment()), Moment()) && (r.Ok? ==> old(script) != [] && script == old(script)[1..])
      ensures if old(script) != [] && old(script)[0].Polled? then r == Ok(old(script)[0].error) else r.Err?
    {
      hide Onward;
      var a := Next();
      r := if a.Polled? then Ok(a.error) else Err(IoError(a.Failed? && a.einval));
    }
  }

  // ---- the queue --------------------------------------------------------

  datatype Slot = Slot(memory: seq<u8>, queued: bool)

  /** How many the driver has, by our own flags. */
  function InFlight(slots: seq<Slot>): (n: nat)
    ensures n <= |slots|
  {
    if slots == [] then 0
    else InFlight(slots[..|slots| - 1]) + if slots[|slots| - 1].queued then 1 else 0
  }

  function FirstFree(slots: seq<Slot>): Option<nat> {
    if slots == [] then None
    else
      var front := FirstFree(slots[..|slots| - 1]);
      if front.Some? then front else if !slots[|slots| - 1].queued then Some(|slots| - 1) else None
  }

  /** A free slot is found exactly when not every one is in flight. */
  lemma {:induction false} FreeExists(slots: seq<Slot>)
    ensures FirstFree(slots).Some? <==> InFlight(slots) < |slots|
    ensures FirstFree(slots).Some? ==> FirstFree(slots).value < |slots| && !slots[FirstFree(slots).value].queued
  {
    if slots != [] { FreeExists(slots[..|slots| - 1]); }
  }

  /** A buffer that is ours to queue. */
  predicate Free(slots: seq<Slot>, i: nat) { i < |slots| && !slots[i].queued }

  predicate AllQueued(slots: seq<Slot>) { forall i :: 0 <= i < |slots| ==> slots[i].queued }

  function Flagged(slots: seq<Slot>, i: nat, queued: bool): seq<Slot>
    requires i < |slots|
  {
    slots[i := slots[i].(queued := queued)]
  }

  lemma {:induction false} FlagCounts(slots: seq<Slot>, i: nat, s: Slot)
    requires i < |slots|
    ensures InFlight(slots[i := s])
         == InFlight(slots) - (if slots[i].queued then 1 else 0) + (if s.queued then 1 else 0)
  {
    var k := |slots| - 1;
    if i < k {
      FlagCounts(slots[..k], i, s);
      assert slots[i := s][..k] == slots[..k][i := s];
    } else {
      assert slots[i := s][..k] == slots[..k];
    }
  }

  lemma {:induction false} NoneQueued(slots: seq<Slot>)
    requires forall k :: 0 <= k < |slots| ==> !slots[k].queued
    ensures InFlight(slots) == 0
  {
    if slots != [] { NoneQueued(slots[..|slots| - 1]); }
  }

  function Cleared(slots: seq<Slot>): seq<Slot> {
    seq(|slots|, i requires 0 <= i < |slots| => slots[i].(queued := false))
  }

  /** The flags agree with the driver, as long as it is honest. */
  predicate Tracks(slots: seq<Slot>, trace: seq<Call>, side: Side) {
    Honest(trace) ==> forall i :: 0 <= i < |slots| ==> (slots[i].queued <==> i in Held(trace, side))
  }

  /** So our count is the number of buffers it really holds. */
  lemma {:induction false} HeldCount(slots: seq<Slot>, held: set<nat>)
    requires forall i :: 0 <= i < |slots| ==> (slots[i].queued <==> i in held)
    ensures |set i: nat | i < |slots| && i in held| == InFlight(slots)
  {
    if slots != [] {
      var k := |slots| - 1;
      HeldCount(slots[..k], held);
      var before, now := set i: nat | i < k && i in held, set i: nat | i < |slots| && i in held;
      assert now == if k in held then before + {k} else before;
    }
  }

  /** At every touch in a safe trace, an honest driver did not hold the buffer. */
  lemma {:induction false} SafeTouches(trace: seq<Call>, k: nat)
    requires Safe(trace) && k < |trace| && trace[k].Touched? && Honest(trace[..k])
    ensures trace[k].index !in Held(trace[..k], trace[k].side)
    decreases |trace|
  {
    var front := trace[..|trace| - 1];
    if k < |trace| - 1 {
      assert front[..k] == trace[..k];
      SafeTouches(front, k);
    } else {
      assert front == trace[..k];
    }
  }

  datatype QueueError = Io(e: IoError) | OutOfRange | AlreadyQueued | UnknownBuffer

  /** A step of the trace, and what it does to flags that agreed with it. */
  lemma TracksStep(slots: seq<Slot>, trace: seq<Call>, side: Side, c: Call)
    requires Tracks(slots, trace, side)
    ensures c.side != side ==> Tracks(slots, trace + [c], side)
    ensures c.side == side && c.Queued? && c.index < |slots| ==>
      Tracks(Flagged(slots, c.index, true), trace + [c], side)
    ensures c.side == side && c.Returned? && c.d.index < |slots| ==>
      Tracks(Flagged(slots, c.d.index, false), trace + [c], side)
    ensures c.side == side && c.Returned? && c.d.index >= |slots| ==> Tracks(slots, trace + [c], side)
    ensures c.side == side && Plain(c) ==> Tracks(slots, trace + [c], side)
    ensures c.side == side && (c.Stopped? || c.Freed?) ==> Tracks(Cleared(slots), trace + [c], side)
  {
    TraceSnoc(trace, c);
  }

  /** A buffer whose flag is clear may be touched. */
  lemma TouchIsSafe(slots: seq<Slot>, trace: seq<Call>, side: Side, i: nat)
    requires Tracks(slots, trace, side) && Safe(trace) && i < |slots| && !slots[i].queued
    ensures Safe(trace + [Touched(side, i)]) && Tracks(slots, trace + [Touched(side, i)], side)
  {
    TraceSnoc(trace, Touched(side, i));
  }

  /** Flags alone decide. */
  lemma SameFlags(slots: seq<Slot>, slots': seq<Slot>, trace: seq<Call>, side: Side)
    requires Tracks(slots, trace, side) && |slots'| == |slots|
    requires forall i :: 0 <= i < |slots| ==> slots'[i].queued == slots[i].queued
    ensures Tracks(slots', trace, side)
  {
  }

  /** A buffer that comes back, known or not. */
  lemma GotBack(slots: seq<Slot>, trace: seq<Call>, side: Side, d: Dequeued)
    requires Tracks(slots, trace, side) && Safe(trace)
    ensures var after := trace + [Returned(side, d)];
      && Safe(after) && Returns(trace, after, side)
      && Tracks(if d.index < |slots| then Flagged(slots, d.index, false) else slots, after, side)
  {
    TraceSnoc(trace, Returned(side, d));
    TracksStep(slots, trace, side, Returned(side, d));
  }

  class Queue {
    const side: Side
    var slots: seq<Slot>
    var streaming: bool

    constructor (side: Side)
      ensures this.side == side && slots == [] && !streaming
    {
      this.side := side;
      slots, streaming := [], false;
    }

    /** Room for as many buffers as the driver grants, none of them queued. */
    method Allocate(ops: Driver, count: nat, exported: bool) returns (r: Result<(), IoError>)
      requires Safe(ops.trace)
      modifies this`slots, ops`script, ops`trace
      ensures Onward(old(ops.Moment()), ops.Moment())
      ensures ops.trace == old(ops.trace) || ops.trace == old(ops.trace) + [Freed(side)]
      ensures Safe(ops.trace) && (r.Ok? ==> Tracks(slots, ops.trace, side) && InFlight(slots) == 0)
      ensures r.Ok? ==> Says(old(ops.script), Number(|slots|))
    {
      hide Onward;
      Moments();
      ghost var before := ops.trace;
      var granted := ops.ReqBufs(side, count);
      if granted.Err? { return Err(granted.error); }
      TraceSnoc(before, Freed(side));
      var mapped := MapBuffers(ops, granted.value, exported);
      if mapped.Err? {
        slots := [];
        return Err(mapped.error);
      }
      slots := mapped.value;
      NoneQueued(slots);
      r := Ok(());
    }

    /** The loop inside `allocate`. */
    static method MapBuffers(ops: Driver, n: nat, exported: bool) returns (r: Result<seq<Slot>, IoError>)
      modifies ops`script
      ensures Onward(old(ops.Moment()), ops.Moment())
      ensures r.Ok? ==> |r.value| == n && forall k :: 0 <= k < n ==> !r.value[k].queued
    {
      hide Onward;
      Moments();
      var slots: seq<Slot> := [];
      for i := 0 to n
        invariant Onward(old(ops.Moment()), ops.Moment()) && |slots| == i && forall k :: 0 <= k < i ==> !slots[k].queued
      {
        var length := ops.Report();
        if length.Err? { return Err(length.error); }
        var mapped := ops.Do();
        if mapped.Err? { return Err(mapped.error); }
        if exported {
          var handle := ops.Do();
          if handle.Err? { return Err(handle.error); }
        }
        slots := slots + [Slot(seq(length.value, _ => 0), false)];
      }
      r := Ok(slots);
    }

    method StreamOn(ops: Driver) returns (r: Result<(), IoError>)
      modifies this`streaming, ops`script
      ensures Onward(old(ops.Moment()), ops.Moment())
      ensures (r.Ok? ==> streaming) && (r.Err? ==> streaming == old(streaming))
    {
      r := ops.Do();
      if r.Ok? { streaming := true; }
    }

    /** Stopping returns every buffer at once. */
    method StopStream(ops: Driver) returns (r: Result<(), IoError>)
      requires Tracks(slots, ops.trace, side) && Safe(ops.trace)
      modifies this, ops`script, ops`trace
      ensures Onward(old(ops.Moment()), ops.Moment()) && Tracks(slots, ops.trace, side) && Safe(ops.trace)
      ensures ops.script == Rest(old(ops.script))
      ensures r.Ok? ==> ops.trace == old(ops.trace) + [Stopped(side)] && slots == Cleared(old(slots)) && !streaming
      ensures r.Err? ==> ops.trace == old(ops.trace) && slots == old(slots) && streaming == old(streaming)
    {
      hide Onward, Safe, Tracks, Honest, Held, Inputs, Outs, Settings;
      ghost var before := ops.trace;
      r := ops.StreamOff(side);
      if r.Err? { return; }
      TraceSnoc(before, Stopped(side));
      TracksStep(slots, before, side, Stopped(side));
      streaming := false;
      slots := Cleared(slots);
    }

    method FreeSlot() returns (r: Option<nat>)
      ensures r == FirstFree(slots)
    {
      for i := 0 to |slots|
        invariant FirstFree(slots[..i]).None?
      {
        assert slots[..i + 1][..i] == slots[..i];
        if !slots[i].queued {
          FirstFreeStays(slots, i + 1);
          return Some(i);
        }
      }
      assert slots[..|slots|] == slots;
      r := None;
    }

    method CountInFlight() returns (n: nat)
      ensures n == InFlight(slots)
    {
      n := 0;
      for i := 0 to |slots|
        invariant n == InFlight(slots[..i])
      {
        assert slots[..i + 1][..i] == slots[..i];
        if slots[i].queued { n := n + 1; }
      }
      assert slots[..|slots|] == slots;
    }

    method Enqueue(ops: Driver, index: nat, bytesUsed: nat, timestampUs: nat) returns (r: Result<(), QueueError>)
      requires Tracks(slots, ops.trace, side) && Safe(ops.trace)
      modifies this`slots, ops`script, ops`trace
      ensures Onward(old(ops.Moment()), ops.Moment()) && Tracks(slots, ops.trace, side) && Safe(ops.trace)
      ensures r.Ok? ==> index < |old(slots)| && !old(slots)[index].queued && slots == Flagged(old(slots), index, true)
      ensures r.Ok? ==> ops.trace == old(ops.trace) + [Queued(side, index, bytesUsed, timestampUs)]
      ensures r.Err? ==> slots == old(slots)
      ensures r.Err? ==>
        ops.trace == old(ops.trace) + if r.error == Io(IoError(true)) then [Declined(side, index)] else []
      ensures r.Ok? ==> ops.script == Rest(old(ops.script))
      ensures index >= |old(slots)| ==> r == Err(OutOfRange)
      ensures index < |old(slots)| && old(slots)[index].queued ==> r == Err(AlreadyQueued)
      ensures r.Ok? <==> Free(old(slots), index) && Says(old(ops.script), Fine)
      ensures r == Err(Io(IoError(true))) <==> Free(old(slots), index) && Says(old(ops.script), Failed(true))
    {
      hide Onward, Safe, Tracks, Honest, Held, Inputs, Outs, Settings;
      Moments();
      if index >= |slots| { return Err(OutOfRange); }
      if slots[index].queued { return Err(AlreadyQueued); }
      ghost var before := ops.trace;
      var done := ops.QBuf(side, index, bytesUsed, timestampUs);
      if done.Err? {
        assert before + [] == before;
        TraceSnoc(before, Declined(side, index));
        TracksStep(slots, before, side, Declined(side, index));
        return Err(Io(done.error));
      }
      TraceSnoc(before, Queued(side, index, bytesUsed, timestampUs));
      TracksStep(slots, before, side, Queued(side, index, bytesUsed, timestampUs));
      slots := slots[index := slots[index].(queued := true)];
      r := Ok(());
    }

    method Take(ops: Driver) returns (r: Result<Dequeue, QueueError>)
      requires Tracks(slots, ops.trace, side) && Safe(ops.trace)
      modifies this`slots, ops`script, ops`trace
      ensures Onward(old(ops.Moment()), ops.Moment())
      ensures r.Ok? ==> old(ops.script) != [] && ops.script == old(ops.script)[1..]
      ensures Tracks(slots, ops.trace, side) && Safe(ops.trace)
      ensures r.Ok? && r.value.Buffer? ==> r.value.d.index < |old(slots)|
      ensures r.Ok? && r.value.Buffer? ==> slots == Flagged(old(slots), r.value.d.index, false)
      ensures r.Ok? && r.value.Buffer? ==> ops.trace == old(ops.trace) + [Returned(side, r.value.d)]
      ensures !(r.Ok? && r.value.Buffer?) ==> slots == old(slots)
      ensures r.Ok? && !r.value.Buffer? ==> ops.trace == old(ops.trace) + [Empty(side, r.value.EndOfSequence?)]
      ensures r.Err? ==> ops.trace == old(ops.trace) || Returns(old(ops.trace), ops.trace, side)
      ensures r.Ok? ==> Given(old(ops.script)) == Some(r.value)
      ensures var q := Given(old(ops.script));
        q.Some? ==>
          && ops.trace == old(ops.trace) + [Dequeueing(side, q.value)]
          && r == if q.value.Buffer? && q.value.d.index >= |old(slots)| then Err(UnknownBuffer) else Ok(q.value)
    {
      hide Onward, Safe, Tracks, Honest, Held, Inputs, Outs, Settings, Returns;
      ghost var before := ops.trace;
      var taken := ops.DqBuf(side);
      if taken.Err? { return Err(Io(taken.error)); }
      if !taken.value.Buffer? {
        TraceSnoc(before, Empty(side, taken.value.EndOfSequence?));
        TracksStep(slots, before, side, Empty(side, taken.value.EndOfSequence?));
        return Ok(taken.value);
      }
      GotBack(slots, before, side, taken.value.d);
      var known := Unqueue(taken.value.d.index);
      r := if known then Ok(taken.value) else Err(UnknownBuffer);
    }

    /** A buffer we know is no longer with the driver. */
    method Unqueue(i: nat) returns (known: bool)
      modifies this`slots
      ensures known <==> i < |old(slots)|
      ensures slots == if i < |old(slots)| then Flagged(old(slots), i, false) else old(slots)
    {
      if i >= |slots| { return false; }
      slots := slots[i := slots[i].(queued := false)];
      known := true;
    }

    /** Gives the buffers back; dropping them unmaps them. */
    method Release(ops: Driver) returns (r: Result<(), IoError>)
      requires Safe(ops.trace)
      modifies this, ops`script, ops`trace
      ensures Onward(old(ops.Moment()), ops.Moment()) && Safe(ops.trace) && Grows(old(ops.trace), ops.trace, side)
      ensures r.Ok? ==> ops.trace == old(ops.trace) + (if old(streaming) then [Stopped(side)] else []) + [Freed(side)]
      ensures r.Ok? ==> !streaming && slots == []
      ensures r.Err? ==> (streaming && slots == old(slots)) || (!streaming && slots == [])
    {
      hide Safe, Honest, Held, Inputs, Outs, Settings, Grows, Onward;
      Moments();
      ghost var before := ops.trace;
      GrowsNot(before, side);
      if streaming {
        var stopped := ops.StreamOff(side);
        if stopped.Err? { return Err(stopped.error); }
        TraceSnoc(before, Stopped(side));
        GrowsBy(before, before, Stopped(side), side);
        streaming := false;
      }
      slots := [];
      ghost var middle := ops.trace;
      var freed := ops.ReqBufs(side, 0);
      if freed.Err? { return Err(freed.error); }
      TraceSnoc(middle, Freed(side));
      GrowsBy(before, middle, Freed(side), side);
      r := Ok(());
    }
  }

  /** A call that is about one side: no input, and nothing the driver hands out. */
  predicate Inner(c: Call, side: Side) {
    && c.side == side && !(c.Queued? && side == Output)
    && !(side == Capture && (c.Returned? || c.Empty? || c.Told?))
  }

  /** The trace grows by such calls. */
  predicate Grows(before: seq<Call>, after: seq<Call>, side: Side) {
    |before| <= |after| && after[..|before|] == before && forall k :: |before| <= k < |after| ==> Inner(after[k], side)
  }

  /** The trace grows by one buffer coming back. */
  predicate Returns(before: seq<Call>, after: seq<Call>, side: Side) {
    |after| == |before| + 1 && after[..|before|] == before && after[|before|].Returned? && after[|before|].side == side
  }

  lemma GrowsNot(trace: seq<Call>, side: Side)
    ensures Grows(trace, trace, side)
  {
  }

  lemma GrowsBy(before: seq<Call>, middle: seq<Call>, c: Call, side: Side)
    requires Grows(before, middle, side) && Inner(c, side)
    ensures Grows(before, middle + [c], side)
  {
    assert (middle + [c])[..|before|] == middle[..|before|];
  }

  /** That leaves the inputs as they were, and the flags of the other side agreeing. */
  lemma {:induction false} OtherSide(slots: seq<Slot>, before: seq<Call>, after: seq<Call>, side: Side)
    requires Grows(before, after, side)
    ensures Inputs(after) == Inputs(before) && Outs(after) == Outs(before) && Asked(after) == Asked(before)
    ensures side == Output ==> Settings(after) == Settings(before) && Endings(after) == Endings(before)
    ensures forall other :: other != side && Tracks(slots, before, other) ==> Tracks(slots, after, other)
    decreases |after|
  {
    if |before| < |after| {
      var k := |after| - 1;
      assert after[..k][..|before|] == before;
      OtherSide(slots, before, after[..k], side);
      assert after[..k] + [after[k]] == after;
      TraceSnoc(after[..k], after[k]);
      forall other | other != side && Tracks(slots, before, other) ensures Tracks(slots, after, other) {
        TracksStep(slots, after[..k], other, after[k]);
      }
    } else {
      assert before == after;
    }
  }

  lemma {:induction false} FirstFreeStays(slots: seq<Slot>, i: nat)
    requires i <= |slots| && FirstFree(slots[..i]).Some?
    ensures FirstFree(slots) == FirstFree(slots[..i])
    decreases |slots|
  {
    if i < |slots| {
      assert slots[..|slots| - 1][..i] == slots[..i];
      FirstFreeStays(slots[..|slots| - 1], i);
    } else {
      assert slots[..i] == slots;
    }
  }
}
