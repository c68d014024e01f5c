/** H.264 in, pictures out, over the two queues of a memory-to-memory decoder. */
module V4l2Decoder {
  import opened Common
  import opened PlaneCopy
  import opened V4l2Queue

  const OUTPUT_BUFFERS: nat := 4
  const OUTPUT_BUFFER_SIZE: nat := 1_048_576
  const CAPTURE_BUFFERS: nat := 6
  const MAX_IN_FLIGHT: nat := 2
  const STALL_INPUTS: nat := 60
  const STALL_POLL_MS: nat := 2_000
  const DRAIN_ROUNDS: nat := 50
  const MAX_FORMATS: nat := 64
  const CAP_DEVICE_CAPS: nat := 0x8000_0000
  const CAP_M2M_MPLANE: nat := 0x4000
  const H264: nat := 0x3436_3248
  const NV12: nat := 0x3231_564E
  const USIZE_MAX: nat := 0xFFFF_FFFF_FFFF_FFFF

  datatype Frame = Frame(width: nat, height: nat, data: seq<u8>, timestampUs: nat)

  datatype Error =
    | Driver(io: IoError)
    | Queue(queue: QueueError)
    | Refused(what: string)
    | Stalled

  /** What a caller who feeds the decoder may be told besides. */
  datatype FeedError = NoFreeBuffer | Other(error: Error)

  /** A dequeue on the capture side: nothing ready, a buffer without a picture, or a
      picture. */
  datatype Taken = Nothing | NoPicture | Picture(frame: Frame)

  /** A round of waiting for an input buffer: one came free, or none yet. */
  datatype Round = Room | Again(progressed: bool, budget: nat)

  predicate StartCode(data: seq<u8>) { [0, 0, 1] <= data || [0, 0, 0, 1] <= data }

  /** Every input buffer holds the largest access unit. */
  predicate LargeEnough(slots: seq<Slot>) {
    forall i :: 0 <= i < |slots| ==> |slots[i].memory| >= OUTPUT_BUFFER_SIZE
  }

  /** The buffers would be of the same size and layout. */
  predicate SameFormat(a: FormatInfo, b: FormatInfo) {
    a.width == b.width && a.height == b.height && a.bytesPerLine == b.bytesPerLine && a.sizeImage == b.sizeImage
  }

  function GeometryOf(coded: FormatInfo, visible: Rect, mapped: nat): Geometry {
    Geometry(coded.bytesPerLine, coded.height, Max(visible.top, 0), Max(visible.left, 0), visible.width, visible.height,
             mapped)
  }

  /** The picture a capture buffer holds, if its geometry is in bounds. */
  function PictureOf(coded: FormatInfo, visible: Rect, d: Dequeued): Option<Frame> {
    var g := GeometryOf(coded, visible, |d.mapping|);
    if !Accepted(g) then None
    else
      AcceptedIsInside(g);
      var j := JobOf(g, d.mapping);
      Some(Frame(visible.width, visible.height, Crop(j, Rows(j)), d.timestampUs))
  }

  /** The picture to hand out for a buffer that came back: none from the provisional
      queue, from an empty buffer, or out of bounds. */
  function Shown(b: Back): Option<Frame> {
    if b.view.provisional || b.d.bytesUsed == 0 then None else PictureOf(b.view.coded, b.view.visible, b.d)
  }

  function FromShown(f: Option<Frame>): Taken { if f.Some? then Picture(f.value) else NoPicture }

  function Plus(frames: seq<Frame>, f: Option<Frame>): seq<Frame> { if f.Some? then frames + [f.value] else frames }

  /** The picture after the first `n`, if there is one. */
  function Next(frames: seq<Frame>, n: nat): Option<Frame> { if n < |frames| then Some(frames[n]) else None }

  /** The pictures to hand out for the buffers that came back, in order, but for those
      that went with a failed call. */
  function AllShown(outs: seq<Back>, gone: set<nat>): seq<Frame> {
    if outs == [] then []
    else
      var k := |outs| - 1;
      if k in gone then AllShown(outs[..k], gone) else Plus(AllShown(outs[..k], gone), Shown(outs[k]))
  }

  lemma {:induction false} AllShownApart(outs: seq<Back>, gone: set<nat>, k: nat)
    requires k >= |outs|
    ensures AllShown(outs, gone + {k}) == AllShown(outs, gone)
  {
    if outs != [] { AllShownApart(outs[..|outs| - 1], gone, k); }
  }

  /** Nothing that has not come back is gone. */
  predicate Within(gone: set<nat>, n: nat) { forall g :: g in gone ==> g < n }

  /** A call that succeeds loses nothing; one that fails may lose the picture of the
      last buffer that came back while it ran. */
  predicate Loses(gone: set<nat>, n: nat, gone': set<nat>, n': nat, ok: bool) {
    gone' == gone || (!ok && n < n' && gone' == gone + {n' - 1})
  }

  /** A picture is lost with the buffer that just came back. */
  lemma LoseLast(outs: seq<Back>, gone: set<nat>)
    requires outs != [] && Within(gone, |outs| - 1)
    ensures var k := |outs| - 1;
      AllShown(outs, gone + {k}) == AllShown(outs[..k], gone) && Within(gone + {k}, |outs|)
  {
    AllShownApart(outs[..|outs| - 1], gone, |outs| - 1);
  }

  lemma Kept(outs: seq<Back>, gone: set<nat>)
    requires outs != [] && Within(gone, |outs| - 1)
    ensures AllShown(outs, gone) == Plus(AllShown(outs[..|outs| - 1], gone), Shown(outs[|outs| - 1]))
    ensures Within(gone, |outs|)
  {
  }

  /** A rectangle was asked for and is shown. */
  predicate ShownBy(before: seq<Setting>, after: seq<Setting>, coded: FormatInfo, rect: Rect) {
    var k := |before|;
    |after| == k + 1 && after[..k] == before && after[k].Shows? && rect == Visible(after[k].rect, coded)
  }

  /** A format was set, and a rectangle asked for. */
  predicate SetTo(before: seq<Setting>, after: seq<Setting>, coded: FormatInfo, rect: Rect) {
    ShownBy(before + [Coded(coded)], after, coded, rect)
  }

  lemma SetInTwo(before: seq<Setting>, middle: seq<Setting>, after: seq<Setting>, coded: FormatInfo, rect: Rect)
    requires middle == before + [Coded(coded)] && ShownBy(middle, after, coded, rect)
    ensures SetTo(before, after, coded, rect)
  {
  }

  lemma ShownNow(before: seq<Setting>, after: seq<Setting>, coded: FormatInfo, rect: Rect)
    requires ShownBy(before, after, coded, rect) && ViewBy(before).coded == coded
    ensures ViewBy(after) == ViewBy(before).(visible := rect) && Formats(after) == Formats(before)
    ensures !Owes(after)
  {
    assert after == before + [after[|before|]];
  }

  /** Then buffers are read by that format and that rectangle, and are provisional if it
      was the first. */
  lemma BroughtUp(before: seq<Setting>, after: seq<Setting>, coded: FormatInfo, rect: Rect)
    requires SetTo(before, after, coded, rect)
    ensures ViewBy(after) == View(Formats(before) == 0, coded, rect) && Formats(after) == Formats(before) + 1
    ensures !Owes(after)
  {
    var middle := before + [Coded(coded)];
    assert middle[..|before|] == before;
    ShownNow(middle, after, coded, rect);
  }

  lemma {:induction false} FormatsGrow(before: seq<Setting>, after: seq<Setting>)
    requires before <= after
    ensures Formats(before) <= Formats(after)
    decreases |after|
  {
    if before != after { FormatsGrow(before, after[..|after| - 1]); }
  }

  lemma {:induction false} ProvisionalIs(settings: seq<Setting>)
    ensures ViewBy(settings).provisional <==> Formats(settings) <= 1
  {
    if settings != [] { ProvisionalIs(settings[..|settings| - 1]); }
  }

  /** What sets the capture side up brings no news. */
  lemma {:induction false} GrowsSet(before: seq<Call>, after: seq<Call>)
    requires Grows(before, after, Capture)
    ensures Formats(Settings(before)) <= Formats(Settings(after))
    ensures Changes(Settings(after)) == Changes(Settings(before))
    ensures Ended(Settings(after)) <==> Ended(Settings(before))
    ensures Owes(Settings(after)) ==> Owes(Settings(before))
    decreases |after|
  {
    if |before| == |after| {
      assert before == after;
    } else {
      var k := |after| - 1;
      assert after[..k][..|before|] == before;
      GrowsSet(before, after[..k]);
      StepSets(after[..k], after[k]);
      assert after[..k] + [after[k]] == after;
    }
  }

  lemma StepSets(trace: seq<Call>, c: Call)
    requires Inner(c, Capture)
    ensures var s, s' := Settings(trace), Settings(trace + [c]);
      && Formats(s) <= Formats(s') && Changes(s') == Changes(s) && (Ended(s') <==> Ended(s)) && (Owes(s') ==> Owes(s))
  {
    hide Changes, Owes, Ended;
    TraceSnoc(trace, c);
    var s := Settings(trace);
    if Settings(trace + [c]) != s {
      var x := Settings(trace + [c])[|s|];
      NewsSnoc(s, x);
      assert (s + [x])[..|s|] == s;
    }
  }

  /** A change that is owed was told of. */
  lemma {:induction false} OwedWasTold(settings: seq<Setting>)
    requires Owes(settings)
    ensures Changes(settings) > 0
  {
    if settings[|settings| - 1] != CHANGE { OwedWasTold(settings[..|settings| - 1]); }
  }

  /** The provisional queue does not come back: once it is replaced, no buffer is read as
      one of its. */
  lemma {:induction false} NeverProvisionalAgain(before: seq<Call>, after: seq<Call>)
    requires before <= after && !ViewOf(before).provisional
    ensures |Outs(before)| <= |Outs(after)| && !ViewOf(after).provisional
    ensures forall k :: |Outs(before)| <= k < |Outs(after)| ==> !Outs(after)[k].view.provisional
    decreases |after|
  {
    OutsGrow(before, after);
    FormatsGrow(Settings(before), Settings(after));
    ProvisionalIs(Settings(before));
    ProvisionalIs(Settings(after));
    if before != after { NeverProvisionalAgain(before, after[..|after| - 1]); }
  }

  /** While nothing is set, buffers are all read alike. */
  lemma {:induction false} ReadAlike(before: seq<Call>, after: seq<Call>)
    requires before <= after && Settings(after) == Settings(before)
    ensures |Outs(before)| <= |Outs(after)|
    ensures forall k :: |Outs(before)| <= k < |Outs(after)| ==> Outs(after)[k].view == ViewOf(before)
    decreases |after|
  {
    if before != after {
      var front := after[..|after| - 1];
      OutsGrow(before, front);
      OutsGrow(front, after);
      ReadAlike(before, front);
    }
  }

  /** The driver was asked for news until there was none. */
  predicate HeardAll(before: seq<Call>, after: seq<Call>) {
    exists k :: |before| <= k < |after| && after[k] == Told(Capture, None)
  }

  /** An input went in, and all the news was heard after it. */
  predicate HeardAfter(before: seq<Call>, after: seq<Call>, bytes: nat, timestampUs: nat) {
    exists k :: |before| <= k < |after| && IsInput(after[k], bytes, timestampUs) && HeardAll(after[..k + 1], after)
  }

  predicate IsInput(c: Call, bytes: nat, timestampUs: nat) {
    c.Queued? && c.side == Output && c.bytesUsed == bytes && c.timestampUs == timestampUs
  }

  lemma HeardOn(before: seq<Call>, p: Past, q: Past)
    requires HeardAll(before, p.trace) && Onward(p, q)
    ensures HeardAll(before, q.trace)
  {
    hide Onward;
    var k :| |before| <= k < |p.trace| && p.trace[k] == Told(Capture, None);
    OnwardKeeps(p, q);
    assert q.trace[k] == p.trace[k];
  }

  lemma HearsNow(p: Past, q: Past)
    requires Onward(p, q)
    ensures HeardAll(p.trace, q.trace + [Told(Capture, None)])
  {
    OnwardKeeps(p, q);
    assert (q.trace + [Told(Capture, None)])[|q.trace|] == Told(Capture, None);
  }

  lemma FedAndHeard(before: seq<Call>, slot: nat, bytes: nat, timestampUs: nat, after: seq<Call>)
    requires var fed := before + [Touched(Output, slot)] + [Queued(Output, slot, bytes, timestampUs)];
      fed <= after && HeardAll(fed, after)
    ensures HeardAfter(before, after, bytes, timestampUs)
  {
    hide HeardAll;
    var fed := before + [Touched(Output, slot)] + [Queued(Output, slot, bytes, timestampUs)];
    var k := |before| + 1;
    assert after[..k + 1] == fed && fed[k] == Queued(Output, slot, bytes, timestampUs);
    assert IsInput(after[k], bytes, timestampUs);
  }

  lemma HeardEarlier(before: seq<Call>, from: seq<Call>, after: seq<Call>, bytes: nat, timestampUs: nat)
    requires |before| <= |from| && HeardAfter(from, after, bytes, timestampUs)
    ensures HeardAfter(before, after, bytes, timestampUs)
  {
    hide HeardAll;
  }

  lemma OnwardKeeps(p: Past, q: Past)
    requires Onward(p, q)
    ensures p.trace <= q.trace
  {
  }

  /** The format the driver reports at a source change, after stopping a running queue. */
  function Reported(script: seq<Answer>, streaming: bool): Option<FormatInfo> {
    var rest := if streaming then Rest(script) else script;
    if rest != [] && rest[0].Format? then Some(rest[0].format) else None
  }

  lemma NothingYet()
    ensures Safe([]) && Inputs([]) == [] && Outs([]) == [] && Settings([]) == []
  {
  }

  // ---- what holds between calls -----------------------------------------

  /** The input queue agrees with the driver, at most `MAX_IN_FLIGHT` inputs are with it,
      and none of its buffers was touched. */
  predicate OutputOk(slots: seq<Slot>, trace: seq<Call>) {
    Safe(trace) && Tracks(slots, trace, Output) && |slots| >= MAX_IN_FLIGHT && InFlight(slots) <= MAX_IN_FLIGHT
  }

  /** The provisional queue is in use until the driver tells of a change, and from then on
      only as long as that has not been seen to. */
  predicate Current(provisional: bool, settings: seq<Setting>) {
    if provisional then Changes(settings) == 0 || Owes(settings) else Changes(settings) > 0
  }

  /** The capture queue agrees with the driver, and is what it was set to. */
  predicate CaptureOk(slots: seq<Slot>, view: View, trace: seq<Call>) {
    Tracks(slots, trace, Capture) && ViewOf(trace) == view && Current(view.provisional, Settings(trace))
  }

  /** The end of the stream is remembered once the driver told of it. */
  predicate NewsOk(finished: bool, settings: seq<Setting>) {
    Formats(settings) >= 1 && (finished <==> Ended(settings))
  }

  /** Being told of something keeps all that. */
  lemma ToldKeeps(output: seq<Slot>, capture: seq<Slot>, view: View, finished: bool, trace: seq<Call>, e: Option<Event>)
    requires OutputOk(output, trace) && NewsOk(finished, Settings(trace))
    ensures var after := trace + [Told(Capture, e)];
      && OutputOk(output, after) && NewsOk(finished || e == Some(EndOfStream), Settings(after))
      && (CaptureOk(capture, view, trace) ==> CaptureOk(capture, view, after))
      && Settings(after) == Settings(trace) + (if e.Some? then [News(e.value)] else [])
  {
    hide Changes, Owes, Ended, ViewBy, ViewOf, Formats, Tracks, Safe, Settings, InFlight;
    ToldOf(trace, e);
    TracksStep(output, trace, Output, Told(Capture, e));
    if CaptureOk(capture, view, trace) { TracksStep(capture, trace, Capture, Told(Capture, e)); }
    ChangesNone(Settings(trace));
  }

  lemma ChangesNone(settings: seq<Setting>)
    ensures Owes(settings) ==> Changes(settings) > 0
  {
    if Owes(settings) { OwedWasTold(settings); }
  }

  // ---- what a device must be able to do ---------------------------------

  predicate Bit(n: nat, bit: nat)
    requires bit > 0
  {
    n / bit % 2 == 1
  }

  predicate IsCodec(capabilities: nat, device: nat) {
    Bit(if Bit(capabilities, CAP_DEVICE_CAPS) then device else capabilities, CAP_M2M_MPLANE)
  }

  /** Whether the driver lists a format among its first `left`, and what it answers
      after that. */
  function Listing(script: seq<Answer>, format: nat, left: nat): (Result<bool, Error>, seq<Answer>)
    decreases left
  {
    if left == 0 then (Err(Refused("device lists too many formats")), script)
    else if script == [] || !script[0].Listed? then
      (Err(Error.Driver(IoError(Says(script, Failed(true))))), Rest(script))
    else if script[0].pixelFormat.None? then (Ok(false), Rest(script))
    else if script[0].pixelFormat.value == format then (Ok(true), Rest(script))
    else Listing(Rest(script), format, left - 1)
  }

  /** A multiplanar memory-to-memory codec that takes H.264 and gives NV12. */
  predicate Capable(script: seq<Answer>) {
    && script != [] && script[0].Caps? && IsCodec(script[0].capabilities, script[0].device)
    && var (h264, rest) := Listing(Rest(script), H264, MAX_FORMATS);
       h264 == Ok(true) && Listing(rest, NV12, MAX_FORMATS).0 == Ok(true)
  }

  class Decoder {
    const ops: V4l2Queue.Driver
    const output: V4l2Queue.Queue
    var capture: V4l2Queue.Queue?
    var coded: FormatInfo
    var visible: Rect
    var provisional: bool
    var ready: seq<Frame>
    var unanswered: nat
    var lastPicture: nat
    var finished: bool
    var sawLast: bool

    /** The pictures handed out, and the buffers whose picture went with a failed call. */
    ghost var handed: seq<Frame>
    ghost var gone: set<nat>

    /** Both sides are as they should be. */
    ghost predicate Core()
      reads this, ops, output, capture
      ensures Core() ==> Apart()
    {
      && Apart() && OutputOk(output.slots, ops.trace) && NewsOk(finished, Settings(ops.trace))
      && (capture != null ==> CaptureOk(capture.slots, View(), ops.trace))
    }

    /** The two queues are two. */
    ghost predicate Apart()
      reads this
    {
      output.side == Output && (capture != null ==> capture.side == Capture)
    }

    ghost function View(): V4l2Queue.View
      reads this
    {
      V4l2Queue.View(provisional, coded, visible)
    }

    /** The pictures to hand out so far, by what the driver gave back. */
    ghost function Pictures(): seq<Frame>
      reads this, ops
    {
      AllShown(Outs(ops.trace), gone)
    }

    /** How many capture buffers came back. */
    ghost function Count(): nat
      reads ops
    {
      |Outs(ops.trace)|
    }

    /** These are the pictures to hand out so far. */
    ghost predicate Due(frames: seq<Frame>)
      reads this, ops
    {
      Pictures() == frames && Within(gone, Count())
    }

    /** The same, before a buffer that just came back. */
    ghost predicate InHand(d: Dequeued, frames: seq<Frame>)
      reads this, ops
    {
      var outs := Outs(ops.trace);
      && outs != [] && outs[|outs| - 1] == Back(d, View())
      && AllShown(outs[..|outs| - 1], gone) == frames && Within(gone, |outs| - 1)
    }

    /** Every picture that came back has been handed out, in order, or waits in line. */
    ghost predicate Accounted()
      reads this, ops
    {
      Due(handed + ready)
    }

    /** From a call to its end: the driver has moved on; at most the last picture is lost,
        and that only when the call fails; and a call that succeeds leaves no source change
        it was told of without an answer. */
    ghost predicate Went(before: Past, gone: set<nat>, ok: bool)
      reads this, ops
    {
      && Onward(before, ops.Moment()) && Loses(gone, |Outs(before.trace)|, this.gone, Count(), ok)
      && (ok ==> Heeds(Settings(before.trace), Settings(ops.trace)))
    }

    /** The capture buffer the driver is about to give back, if it is one we know. */
    ghost function Offered(): Option<Dequeued>
      reads this, ops, capture
    {
      var q := Given(ops.script);
      if capture != null && q.Some? && q.value.Buffer? && q.value.d.index < |capture.slots| then Some(q.value.d)
      else None
    }

    /** The picture we are about to get, when the driver's next answers are a buffer, not
        the last one, and that it takes the buffer in again. */
    ghost function Coming(script: seq<Answer>): Option<Frame>
      reads this, capture
    {
      var q := Given(script);
      if capture != null && q.Some? && q.value.Buffer? && !q.value.d.last && Says(Rest(script), Fine)
         && q.value.d.index < |capture.slots| && capture.slots[q.value.d.index].queued then
        Shown(Back(q.value.d, View()))
      else None
    }

    /** The same, when the driver has no news before that. */
    ghost function ComingAfter(script: seq<Answer>): Option<Frame>
      reads this, capture
    {
      if Says(script, Happens(None)) then Coming(Rest(script)) else None
    }

    /** There is room for this access unit, the driver takes it, and a picture comes. */
    ghost predicate Smooth(data: seq<u8>)
      reads this, ops, output, capture
    {
      && StartCode(data) && |data| <= OUTPUT_BUFFER_SIZE && !finished && !sawLast
      && InFlight(output.slots) < MAX_IN_FLIGHT && LargeEnough(output.slots)
      && Says(ops.script, Fine) && ComingAfter(Rest(ops.script)).Some?
    }

    /** Nothing but a picture waits for us. */
    ghost predicate Idle()
      reads this, ops, capture
    {
      && Says(ops.script, Polled(false)) && Says(Rest(ops.script), Happens(None))
      && var q := Given(Rest(Rest(ops.script)));
         q.Some? && !q.value.Buffer? && Coming(Rest(Rest(Rest(ops.script)))).Some?
    }

    /** On success this input went in, all news was heard after it, and the next picture due
        is handed out; on failure none is, and the input may have gone in. */
    ghost predicate Took(r: Result<Option<Frame>, FeedError>, before: seq<Call>, handed: seq<Frame>, bytes: nat,
                         timestampUs: nat)
      reads this, ops
    {
      var given := Inputs(before) + [(bytes, timestampUs)];
      match r
      case Ok(f) =>
        && Inputs(ops.trace) == given && HeardAfter(before, ops.trace, bytes, timestampUs)
        && f == Next(Pictures(), |handed|) && this.handed == Plus(handed, f) && (f.None? ==> !Stuck())
      case Err(_) => this.handed == handed && (Inputs(ops.trace) == given || Inputs(ops.trace) == Inputs(before))
    }

    /** One input more without a picture, or a picture since. */
    ghost predicate Pending(pictures: nat, unanswered: nat, lastPicture: nat)
      reads this
    {
      && |handed| + |ready| >= pictures
      && if |handed| + |ready| == pictures then this.unanswered == unanswered + 1 && this.lastPicture == lastPicture
         else this.unanswered <= 1
    }

    /** The capture side was asked last, and had nothing. */
    ghost predicate Dry()
      reads ops
    {
      ops.trace != [] && ops.trace[|ops.trace| - 1] == Empty(Capture, false)
    }

    /** Pictures were put in line; the count of inputs without one, and the time, started
        over if there were any. */
    ghost predicate Gained(ready: seq<Frame>, unanswered: nat, lastPicture: nat)
      reads this
    {
      && ready <= this.ready
      && if this.ready == ready then this.unanswered == unanswered && this.lastPicture == lastPicture
         else this.unanswered == 0
    }

    /** The count of inputs without a picture starts over with each picture, and so does
        the time without one. */
    ghost predicate Counts(picture: bool, unanswered: nat, lastPicture: nat)
      reads this, ops
    {
      if picture then this.unanswered == 0 && this.lastPicture == ops.read
      else this.unanswered == unanswered && this.lastPicture == lastPicture
    }

    /** The capture side was asked for pictures since, unless there is nothing to ask. */
    ghost predicate Served(before: seq<Call>)
      reads this, ops
    {
      Asked(ops.trace) > Asked(before) || sawLast || capture == null
    }

    /** Many inputs and no picture, for long. */
    ghost predicate Stuck()
      reads this, ops
    {
      unanswered >= STALL_INPUTS && SatSub(ops.read, lastPicture) >= STALL_POLL_MS
    }

    /** The driver brought no news since. */
    ghost predicate Quiet(before: seq<Call>)
      reads ops
    {
      var s, s' := Settings(before), Settings(ops.trace);
      Changes(s') == Changes(s) && (Ended(s') <==> Ended(s)) && (Owes(s') ==> Owes(s))
    }

    /** The capture side is as it was, and no picture was added. */
    ghost predicate Unmoved(capture: V4l2Queue.Queue?, view: V4l2Queue.View, sawLast: bool, ready: seq<Frame>)
      reads this
    {
      this.capture == capture && View() == view && this.sawLast == sawLast && this.ready == ready
    }

    /** Nothing went to the driver or came from it on the capture side. */
    ghost predicate Still(slots: seq<Slot>, trace: seq<Call>)
      requires capture != null
      reads this, ops, capture
    {
      capture.slots == slots && ops.trace == trace
    }

    /** The capture side is at work: every buffer is with the driver. */
    ghost predicate Running()
      reads this, capture
    {
      capture != null && capture.streaming && AllQueued(capture.slots)
    }

    ghost predicate Valid()
      reads this, ops, output, capture
      ensures Valid() ==> Apart() && |output.slots| >= MAX_IN_FLIGHT
    {
      Core() && Accounted()
    }

    constructor (ops: V4l2Queue.Driver, output: V4l2Queue.Queue, capture: V4l2Queue.Queue, coded: FormatInfo,
                 visible: Rect, now: nat)
      requires output.side == Output && capture.side == Capture && Safe(ops.trace)
      requires Tracks(output.slots, ops.trace, Output) && Tracks(capture.slots, ops.trace, Capture)
      requires |output.slots| >= MAX_IN_FLIGHT && InFlight(output.slots) <= MAX_IN_FLIGHT && Outs(ops.trace) == []
      requires Formats(Settings(ops.trace)) >= 1 && ViewOf(ops.trace) == V4l2Queue.View(true, coded, visible)
      requires Changes(Settings(ops.trace)) == 0 && !Ended(Settings(ops.trace))
      ensures Valid() && this.ops == ops && this.output == output && this.capture == capture && gone == {}
      ensures provisional && handed == [] && ready == []
    {
      this.ops, this.output, this.capture, this.coded, this.visible := ops, output, capture, coded, visible;
      provisional, ready, unanswered, lastPicture, finished, sawLast := true, [], 0, now, false, false;
      handed, gone := [], {};
    }

    /** Sets a device up: a codec for the formats we need, the input buffers, enough of
        them and large enough, and the provisional capture queue. */
    static method Start(ops: V4l2Queue.Driver) returns (r: Result<Decoder, Error>)
      requires ops.trace == []
      modifies ops
      ensures r.Ok? ==> Capable(old(ops.script)) && Onward(old(ops.Moment()), ops.Moment())
      ensures r.Ok? ==> fresh(r.value) && r.value.Valid() && r.value.ops == ops && r.value.gone == {}
      ensures r.Ok? ==> r.value.provisional && r.value.handed == [] && Inputs(ops.trace) == []
      ensures r.Ok? ==> r.value.Running() && InFlight(r.value.output.slots) == 0
      ensures r.Ok? ==> LargeEnough(r.value.output.slots)
    {
      hide Safe, Tracks, Honest, Held, InFlight, Onward, Capable, Grows, ViewBy;
      Moments();
      var probed := Probe(ops);
      if probed.Err? { return Err(probed.error); }
      var input := StartOutput(ops);
      if input.Err? { return Err(input.error); }
      var output := input.value;
      ghost var before := ops.trace;
      var built := BringUpCapture(ops);
      OtherSide(output.slots, before, ops.trace, Capture);
      if built.Err? {
        var released := output.Release(ops);
        return Err(built.error);
      }
      GrowsSet(before, ops.trace);
      BroughtUp([], Settings(ops.trace), built.value.1, built.value.2);
      var now := ops.Now();
      var decoder := new Decoder(ops, output, built.value.0, built.value.1, built.value.2, now);
      r := Ok(decoder);
    }

    /** What is asked before anything is set. */
    static method Probe(ops: V4l2Queue.Driver) returns (r: Result<(), Error>)
      modifies ops`script
      ensures Onward(old(ops.Moment()), ops.Moment()) && (r.Ok? <==> Capable(old(ops.script)))
    {
      hide Onward, Listing, IsCodec;
      Moments();
      var caps := ops.QueryCap();
      if caps.Err? { return Err(Error.Driver(caps.error)); }
      if !IsCodec(caps.value.0, caps.value.1) { return Err(Refused("not a memory-to-memory codec")); }
      var h264 := Supports(ops, H264);
      if h264.Err? { return Err(h264.error); }
      if !h264.value { return Err(Refused("device does not accept H.264")); }
      var nv12 := Supports(ops, NV12);
      if nv12.Err? { return Err(nv12.error); }
      r := if nv12.value then Ok(()) else Err(Refused("device does not produce NV12"));
    }

    static method Supports(ops: V4l2Queue.Driver, format: nat) returns (r: Result<bool, Error>)
      modifies ops`script
      ensures Onward(old(ops.Moment()), ops.Moment())
      ensures (r, ops.script) == Listing(old(ops.script), format, MAX_FORMATS)
    {
      hide Onward;
      Moments();
      for i := 0 to MAX_FORMATS
        invariant Onward(old(ops.Moment()), ops.Moment())
        invariant Listing(ops.script, format, MAX_FORMATS - i) == Listing(old(ops.script), format, MAX_FORMATS)
      {
        var listed := ops.EnumFmt();
        if listed.Err? { return Err(Error.Driver(listed.error)); }
        if listed.value.None? { return Ok(false); }
        if listed.value.value == format { return Ok(true); }
      }
      r := Err(Refused("device lists too many formats"));
    }

    static method StartOutput(ops: V4l2Queue.Driver) returns (r: Result<V4l2Queue.Queue, Error>)
      requires ops.trace == []
      modifies ops`script, ops`trace
      ensures Onward(old(ops.Moment()), ops.Moment())
      ensures r.Ok? ==> Safe(ops.trace) && fresh(r.value) && r.value.side == Output
      ensures r.Ok? ==> Tracks(r.value.slots, ops.trace, Output) && Inputs(ops.trace) == [] && Outs(ops.trace) == []
      ensures r.Ok? ==> Settings(ops.trace) == []
      ensures r.Ok? ==> |r.value.slots| >= MAX_IN_FLIGHT && InFlight(r.value.slots) == 0
      ensures r.Ok? ==> LargeEnough(r.value.slots)
    {
      hide Tracks, Onward, InFlight, LargeEnough;
      Moments();
      var asked := SetOutput(ops);
      if asked.Err? { return Err(asked.error); }
      ghost var before := ops.trace;
      var output := new V4l2Queue.Queue(Output);
      var granted := output.Allocate(ops, OUTPUT_BUFFERS, false);
      if granted.Err? { return Err(Error.Driver(granted.error)); }
      TraceSnoc(before, Call.Freed(Output));
      var fit := CheckOutput(output);
      if fit.Some? { return Err(fit.value); }
      var on := output.StreamOn(ops);
      r := if on.Err? then Err(Error.Driver(on.error)) else Ok(output);
    }

    /** The format of the input side, and the events to hear of. */
    static method SetOutput(ops: V4l2Queue.Driver) returns (r: Result<(), Error>)
      requires ops.trace == []
      modifies ops`script, ops`trace
      ensures Onward(old(ops.Moment()), ops.Moment()) && Safe(ops.trace)
      ensures Inputs(ops.trace) == [] && Outs(ops.trace) == [] && Settings(ops.trace) == []
    {
      hide Onward;
      Moments();
      NothingYet();
      assert ops.trace == [];
      var format := ops.SetFmt(Output);
      if format.Err? { return Err(Error.Driver(format.error)); }
      TraceSnoc([], Call.Formatted(Output, format.value));
      assert [] + [Call.Formatted(Output, format.value)] == [Call.Formatted(Output, format.value)];
      var change := ops.Do();
      if change.Err? { return Err(Error.Driver(change.error)); }
      var end := ops.Do();
      r := if end.Err? then Err(Error.Driver(end.error)) else Ok(());
    }

    static method CheckOutput(output: V4l2Queue.Queue) returns (r: Option<Error>)
      ensures r.None? <==> |output.slots| >= MAX_IN_FLIGHT && LargeEnough(output.slots)
    {
      if |output.slots| < MAX_IN_FLIGHT { return Some(Refused("too few output buffers")); }
      for i := 0 to |output.slots|
        invariant forall k :: 0 <= k < i ==> |output.slots[k].memory| >= OUTPUT_BUFFER_SIZE
      {
        if |output.slots[i].memory| < OUTPUT_BUFFER_SIZE { return Some(Refused("an output buffer is too small")); }
      }
      r := None;
    }

    /** Takes back every input the driver is done with. */
    method DrainOutput() returns (r: Result<bool, Error>)
      requires Valid()
      modifies output`slots, ops`script, ops`trace
      ensures Valid() && InFlight(output.slots) <= old(InFlight(output.slots))
      ensures |output.slots| == |old(output.slots)|
      ensures Inputs(ops.trace) == old(Inputs(ops.trace)) && Outs(ops.trace) == old(Outs(ops.trace))
      ensures Settings(ops.trace) == old(Settings(ops.trace)) && Onward(old(ops.Moment()), ops.Moment())
      ensures Asked(ops.trace) == old(Asked(ops.trace)) && Endings(ops.trace) == old(Endings(ops.trace))
      ensures var q := Given(old(ops.script)); q.Some? ==> old(ops.trace) + [Dequeueing(Output, q.value)] <= ops.trace
      ensures r.Ok? ==>
        ops.trace != [] && ops.trace[|ops.trace| - 1].Empty? && ops.trace[|ops.trace| - 1].side == Output
      ensures r == Ok(false) ==> ops.script == Rest(old(ops.script)) && output.slots == old(output.slots)
      ensures var q := Given(old(ops.script)); r == Ok(false) <==> q.Some? && !q.value.Buffer?
    {
      hide Safe, Tracks, Honest, Held, InFlight, Inputs, Outs, Settings, ViewBy, Changes, Owes, Ended, Asked, Endings;
      hide Onward, Decoder.Valid;
      OnwardStays(ops.Moment());
      var any := false;
      while true
        invariant Valid() && InFlight(output.slots) <= old(InFlight(output.slots))
        invariant |output.slots| == |old(output.slots)|
        invariant Inputs(ops.trace) == old(Inputs(ops.trace)) && Outs(ops.trace) == old(Outs(ops.trace))
        invariant Settings(ops.trace) == old(Settings(ops.trace)) && Onward(old(ops.Moment()), ops.Moment())
        invariant Asked(ops.trace) == old(Asked(ops.trace)) && Endings(ops.trace) == old(Endings(ops.trace))
        invariant !any ==>
          ops.script == old(ops.script) && output.slots == old(output.slots) && ops.trace == old(ops.trace)
        invariant any ==> var q := Given(old(ops.script));
                          q.Some? && q.value.Buffer? && old(ops.trace) + [Dequeueing(Output, q.value)] <= ops.trace
        decreases |ops.script|
      {
        ghost var before := ops.Moment();
        var taken := TakeInput();
        OnwardOn(old(ops.Moment()), before, ops.Moment());
        if taken.Err? { return Err(taken.error); }
        if !taken.value { return Ok(any); }
        any := true;
      }
    }

    /** The next input the driver is done with: whether there was one. */
    method TakeInput() returns (r: Result<bool, Error>)
      requires Valid()
      modifies output`slots, ops`script, ops`trace
      ensures Valid() && InFlight(output.slots) <= old(InFlight(output.slots))
      ensures |output.slots| == |old(output.slots)|
      ensures Inputs(ops.trace) == old(Inputs(ops.trace)) && Outs(ops.trace) == old(Outs(ops.trace))
      ensures Settings(ops.trace) == old(Settings(ops.trace)) && Onward(old(ops.Moment()), ops.Moment())
      ensures Asked(ops.trace) == old(Asked(ops.trace)) && Endings(ops.trace) == old(Endings(ops.trace))
      ensures var q := Given(old(ops.script));
        if q.Some? then ops.trace == old(ops.trace) + [Dequeueing(Output, q.value)] else r.Err?
      ensures r.Ok? ==> ops.script == Rest(old(ops.script)) && r.value == Given(old(ops.script)).value.Buffer?
      ensures r == Ok(false) ==> output.slots == old(output.slots)
      ensures r.Err? ==> old(ops.trace) <= ops.trace
      ensures var q := Given(old(ops.script)); q.Some? && !q.value.Buffer? ==> r.Ok?
    {
      hide Safe, Tracks, Honest, Held, InFlight, Inputs, Outs, Settings, ViewBy, Changes, Owes, Ended, Asked, Endings;
      hide Onward, AllShown, Within;
      ghost var slots, before := output.slots, ops.trace;
      var taken := output.Take(ops);
      OtherSide(if capture != null then capture.slots else [], before, ops.trace, Output);
      if taken.Err? { return Err(Error.Queue(taken.error)); }
      if !taken.value.Buffer? { return Ok(false); }
      FlagCounts(slots, taken.value.d.index, output.slots[taken.value.d.index]);
      r := Ok(true);
    }

    /** Copies one picture out of a capture buffer and gives the buffer back. */
    method TakeCapture(threads: nat, ghost due: seq<Frame>) returns (r: Result<Taken, Error>)
      requires Core() && Due(due)
      modifies this`sawLast, this`unanswered, this`lastPicture, this`gone
      modifies ops, capture
      ensures Core() && Due(if r.Ok? && r.value.Picture? then due + [r.value.frame] else due)
      ensures Inputs(ops.trace) == old(Inputs(ops.trace)) && Settings(ops.trace) == old(Settings(ops.trace))
      ensures Went(old(ops.Moment()), old(gone), r.Ok?)
      ensures r.Ok? ==> Count() == old(Count()) + if r.value.Nothing? then 0 else 1
      ensures r.Ok? && old(Offered()).Some? ==> r.value == FromShown(Shown(Back(old(Offered()).value, old(View()))))
      ensures r.Ok? && (capture != null || !r.value.Nothing?) ==> Asked(ops.trace) == old(Asked(ops.trace)) + 1
      ensures r.Ok? ==> (sawLast <==> old(sawLast) || Endings(ops.trace) > old(Endings(ops.trace)))
      ensures Counts(r.Ok? && r.value.Picture?, old(unanswered), old(lastPicture))
      ensures r == Ok(Nothing) && capture != null && !sawLast ==> Dry()
      ensures old(Coming(ops.script)).Some? ==>
        r == Ok(FromShown(old(Coming(ops.script)))) && sawLast == old(sawLast)
        && ops.script == Rest(Rest(old(ops.script))) && capture.slots == old(capture.slots)
    {
      hide Safe, Tracks, Honest, Held, InFlight, Inputs, Outs, Settings, ViewBy, Changes, Owes, Ended, Asked, Endings;
      hide Onward, AllShown, Shown, Plus, Within;
      Moments();
      Counted();
      var taken := TakeBuffer(due);
      if taken.Err? { return Err(taken.error); }
      if taken.value.None? { return Ok(Nothing); }
      r := Recycle(taken.value.value, threads, due);
    }

    /** The picture of a buffer that came back, if there is one to hand out. */
    method Look(d: Dequeued, threads: nat) returns (f: Option<Frame>)
      requires Core() && capture != null && Free(capture.slots, d.index)
      modifies ops`trace
      ensures Core() && Inputs(ops.trace) == old(Inputs(ops.trace)) && Outs(ops.trace) == old(Outs(ops.trace))
      ensures Settings(ops.trace) == old(Settings(ops.trace)) && Onward(old(ops.Moment()), ops.Moment())
      ensures Asked(ops.trace) == old(Asked(ops.trace)) && Endings(ops.trace) == old(Endings(ops.trace))
      ensures f == Shown(Back(d, View()))
    {
      hide Safe, Tracks, Honest, Held, InFlight, Inputs, Outs, Settings, ViewBy, Changes, Owes, Ended, Asked, Endings;
      hide Onward, PictureOf;
      Moments();
      if provisional || d.bytesUsed == 0 { return None; }
      f := CopyOut(d, threads);
    }

    /** The picture of a buffer that came back, and the buffer back to the driver. */
    method Recycle(d: Dequeued, threads: nat, ghost due: seq<Frame>) returns (r: Result<Taken, Error>)
      requires Core() && InHand(d, due)
      requires capture != null && Free(capture.slots, d.index)
      modifies this`sawLast, this`unanswered, this`lastPicture, this`gone
      modifies ops, capture
      ensures Core() && Due(if r.Ok? && r.value.Picture? then due + [r.value.frame] else due)
      ensures Inputs(ops.trace) == old(Inputs(ops.trace)) && Settings(ops.trace) == old(Settings(ops.trace))
      ensures Onward(old(ops.Moment()), ops.Moment()) && Count() == old(Count())
      ensures gone == old(gone) || (r.Err? && gone == old(gone) + {Count() - 1})
      ensures r.Ok? ==> r.value == FromShown(Shown(Back(d, View())))
      ensures Asked(ops.trace) == old(Asked(ops.trace)) && Endings(ops.trace) >= old(Endings(ops.trace))
      ensures r.Ok? ==> (sawLast <==> old(sawLast) || d.last || Endings(ops.trace) > old(Endings(ops.trace)))
      ensures Counts(r.Ok? && r.value.Picture?, old(unanswered), old(lastPicture))
      ensures !d.last && Says(old(ops.script), Fine) && Shown(Back(d, View())).Some? ==>
        r.Ok? && sawLast == old(sawLast) && ops.script == Rest(old(ops.script))
        && capture.slots == Flagged(old(capture.slots), d.index, true)
    {
      hide Safe, Tracks, Honest, Held, InFlight, Inputs, Outs, Settings, ViewBy, Changes, Owes, Ended, Asked, Endings;
      hide Onward, AllShown, Shown, Within, Decoder.Core;
      var picture := Look(d, threads);
      ghost var looked := ops.Moment();
      r := Return(d, picture, due);
      OnwardOn(old(ops.Moment()), looked, ops.Moment());
    }

    /** The buffer back to the driver, and the picture it held. */
    method Return(d: Dequeued, picture: Option<Frame>, ghost due: seq<Frame>) returns (r: Result<Taken, Error>)
      requires Core() && InHand(d, due) && picture == Shown(Back(d, View()))
      requires capture != null && Free(capture.slots, d.index)
      modifies this`sawLast, this`unanswered, this`lastPicture, this`gone
      modifies ops, capture
      ensures Core() && Due(if r.Ok? && r.value.Picture? then due + [r.value.frame] else due)
      ensures Inputs(ops.trace) == old(Inputs(ops.trace)) && Settings(ops.trace) == old(Settings(ops.trace))
      ensures Onward(old(ops.Moment()), ops.Moment()) && Count() == old(Count())
      ensures gone == old(gone) || (r.Err? && gone == old(gone) + {Count() - 1})
      ensures r.Ok? ==> r.value == FromShown(Shown(Back(d, View())))
      ensures Asked(ops.trace) == old(Asked(ops.trace)) && Endings(ops.trace) >= old(Endings(ops.trace))
      ensures r.Ok? ==> (sawLast <==> old(sawLast) || d.last || Endings(ops.trace) > old(Endings(ops.trace)))
      ensures Counts(r.Ok? && r.value.Picture?, old(unanswered), old(lastPicture))
      ensures !d.last && Says(old(ops.script), Fine) && Shown(Back(d, View())).Some? ==>
        r.Ok? && sawLast == old(sawLast) && ops.script == Rest(old(ops.script))
        && capture.slots == Flagged(old(capture.slots), d.index, true)
    {
      hide Safe, Tracks, Honest, Held, InFlight, Inputs, Outs, Settings, ViewBy, Changes, Owes, Ended, Asked, Endings;
      hide Onward, AllShown, Shown, Within, Decoder.Core;
      Kept(Outs(ops.trace), gone);
      var back := GiveBack(d);
      if back.Err? {
        Lose(due);
        return Err(back.error);
      }
      if !provisional && d.bytesUsed != 0 && picture.None? { return Err(Refused("capture geometry out of bounds")); }
      if picture.None? { return Ok(NoPicture); }
      StartOver();
      r := Ok(Picture(picture.value));
    }

    /** A picture ends the time without one. */
    method StartOver()
      requires Core()
      modifies this`unanswered, this`lastPicture, ops`clock, ops`read
      ensures Core() && unanswered == 0 && lastPicture == ops.read
    {
      unanswered := 0;
      lastPicture := ops.Now();
    }

    /** The picture of the buffer that came back last is lost. */
    ghost method Lose(due: seq<Frame>)
      requires Core() && Outs(ops.trace) != [] && Within(gone, Count() - 1)
      requires AllShown(Outs(ops.trace)[..Count() - 1], gone) == due
      modifies this`gone
      ensures Core() && Due(due) && gone == old(gone) + {Count() - 1}
    {
      hide Safe, Tracks, Honest, Held, InFlight, Inputs, Outs, Settings, ViewBy, Changes, Owes, Ended, AllShown, Within;
      LoseLast(Outs(ops.trace), gone);
      gone := gone + {Count() - 1};
    }

    /** The capture buffer the driver is done with, if there is one. */
    method TakeBuffer(ghost due: seq<Frame>) returns (r: Result<Option<Dequeued>, Error>)
      requires Core() && Due(due)
      modifies this`sawLast, this`gone, ops`script, ops`trace, capture
      ensures Core() && Inputs(ops.trace) == old(Inputs(ops.trace)) && Settings(ops.trace) == old(Settings(ops.trace))
      ensures Went(old(ops.Moment()), old(gone), r.Ok?)
      ensures r.Ok? && r.value.Some? ==>
        capture != null && Free(capture.slots, r.value.value.index) && InHand(r.value.value, due)
        && Outs(ops.trace) == old(Outs(ops.trace)) + [Back(r.value.value, View())]
      ensures !(r.Ok? && r.value.Some?) ==> Due(due)
      ensures r == Ok(None) ==> Outs(ops.trace) == old(Outs(ops.trace))
      ensures r == Ok(None) && capture != null && !sawLast ==> Dry()
      ensures r.Ok? && capture != null ==>
        Asked(ops.trace) == old(Asked(ops.trace)) + 1 && ops.script == Rest(old(ops.script))
      ensures r == Ok(None) ==> (sawLast <==> old(sawLast) || Endings(ops.trace) > old(Endings(ops.trace)))
      ensures r.Ok? && r.value.Some? ==>
        && sawLast == old(sawLast)
        && Endings(ops.trace) == old(Endings(ops.trace)) + (if r.value.value.last then 1 else 0)
        && r.value.value.index < |old(capture.slots)|
        && capture.slots == Flagged(old(capture.slots), r.value.value.index, false)
      ensures Endings(ops.trace) >= old(Endings(ops.trace))
      ensures old(Offered()).Some? ==> r == Ok(old(Offered()))
    {
      hide Safe, Tracks, Honest, Held, InFlight, Inputs, Outs, Settings, ViewBy, Changes, Owes, Ended, Asked, Endings;
      hide Onward, AllShown, Shown, Plus;
      Moments();
      if capture == null { return Ok(None); }
      ghost var before := ops.trace;
      var taken := capture.Take(ops);
      if ops.trace != before {
        CameBack(output.slots, before, ops.trace,
                 if taken.Ok? then taken.value else Buffer(ops.trace[|before|].d));
      }
      if taken.Err? {
        if ops.trace != before {
          LoseLast(Outs(ops.trace), gone);
          gone := gone + {Count() - 1};
        }
        return Err(Error.Queue(taken.error));
      }
      match taken.value {
        case Buffer(d) => r := Ok(Some(d));
        case Idle => r := Ok(None);
        case EndOfSequence =>
          sawLast := true;
          r := Ok(None);
      }
    }

    /** Back into the driver's rotation, except for the last buffer of a sequence; a
        refusal with EINVAL ends the sequence too. */
    method GiveBack(d: Dequeued) returns (r: Result<(), Error>)
      requires Core() && capture != null
      modifies this`sawLast, ops`script, ops`trace, capture`slots
      ensures Core() && Inputs(ops.trace) == old(Inputs(ops.trace)) && Outs(ops.trace) == old(Outs(ops.trace))
      ensures Settings(ops.trace) == old(Settings(ops.trace)) && Onward(old(ops.Moment()), ops.Moment())
      ensures Asked(ops.trace) == old(Asked(ops.trace))
      ensures d.last ==> r.Ok? && sawLast && Still(old(capture.slots), old(ops.trace))
      ensures !d.last && old(Free(capture.slots, d.index)) && Says(old(ops.script), Fine) ==>
        r.Ok? && sawLast == old(sawLast) && ops.trace == old(ops.trace) + [Queued(Capture, d.index, 0, 0)]
        && capture.slots == Flagged(old(capture.slots), d.index, true) && ops.script == Rest(old(ops.script))
      ensures !d.last && old(Free(capture.slots, d.index)) && Says(old(ops.script), Failed(true)) ==>
        r.Ok? && sawLast && Still(old(capture.slots), old(ops.trace) + [Declined(Capture, d.index)])
      ensures !d.last
              && !(old(Free(capture.slots, d.index))
                   && (Says(old(ops.script), Fine) || Says(old(ops.script), Failed(true)))) ==>
        r.Err? && sawLast == old(sawLast) && Still(old(capture.slots), old(ops.trace))
      ensures Endings(ops.trace) >= old(Endings(ops.trace))
      ensures r.Ok? ==> (sawLast <==> old(sawLast) || d.last || Endings(ops.trace) > old(Endings(ops.trace)))
    {
      hide Safe, Tracks, Honest, Held, InFlight, Inputs, Outs, Settings, ViewBy, Changes, Owes, Ended, Asked, Endings;
      hide Onward;
      Moments();
      r := Ok(());
      if d.last {
        sawLast := true;
        return;
      }
      ghost var before := ops.trace;
      var back := capture.Enqueue(ops, d.index, 0, 0);
      GaveBack(output.slots, before, Queued(Capture, d.index, 0, 0));
      GaveBack(output.slots, before, Declined(Capture, d.index));
      if back.Err? {
        assert before + [] == before;
        if back.error == Io(IoError(true)) { sawLast := true; } else { r := Err(Error.Queue(back.error)); }
      }
    }

    /** The picture of a buffer just taken back, if its geometry is in bounds. */
    method CopyOut(d: Dequeued, threads: nat) returns (f: Option<Frame>)
      requires Core() && capture != null && d.index < |capture.slots| && !capture.slots[d.index].queued
      modifies ops`trace
      ensures Core() && Inputs(ops.trace) == old(Inputs(ops.trace)) && Outs(ops.trace) == old(Outs(ops.trace))
      ensures Settings(ops.trace) == old(Settings(ops.trace)) && Onward(old(ops.Moment()), ops.Moment())
      ensures Asked(ops.trace) == old(Asked(ops.trace)) && Endings(ops.trace) == old(Endings(ops.trace))
      ensures f == PictureOf(coded, visible, d)
    {
      hide Safe, Tracks, Honest, Held, InFlight, Inputs, Outs, Settings, ViewBy, Changes, Owes, Ended, Asked, Endings;
      hide Onward;
      Moments();
      var g := GeometryOf(coded, visible, |d.mapping|);
      if !Accepted(g) { return None; }
      AcceptedIsInside(g);
      ghost var before := ops.trace;
      TraceSnoc(before, Touched(Capture, d.index));
      TouchIsSafe(capture.slots, before, Capture, d.index);
      GrowsNot(before, Capture);
      GrowsBy(before, before, Touched(Capture, d.index), Capture);
      Unasked(ops.script, before, Capture, d.index);
      OtherSide(output.slots, before, before + [Touched(Capture, d.index)], Capture);
      ops.trace := ops.trace + [Touched(Capture, d.index)];
      var j := JobOf(g, d.mapping);
      var dst := new u8[Rows(j) * j.w];
      CopyPlanes(dst, j, threads);
      f := Some(Frame(visible.width, visible.height, dst[..], d.timestampUs));
    }

    /** Puts up to `limit` pictures in line for the caller. */
    method CollectCapture(limit: nat, threads: nat) returns (r: Result<bool, Error>)
      requires Valid()
      modifies this`sawLast, this`unanswered, this`lastPicture, this`gone, this`ready
      modifies ops, capture
      ensures Valid() && Inputs(ops.trace) == old(Inputs(ops.trace)) && Settings(ops.trace) == old(Settings(ops.trace))
      ensures Went(old(ops.Moment()), old(gone), r.Ok?) && Gained(old(ready), old(unanswered), old(lastPicture))
      ensures r.Ok? ==> Count() <= old(Count()) + limit
      ensures r.Ok? && !old(sawLast) && limit > 0 && old(Offered()).Some? ==> r.value
      ensures r.Ok? ==> (sawLast <==> old(sawLast) || Endings(ops.trace) > old(Endings(ops.trace)))
      ensures r.Ok? && limit > 0 ==> Served(old(ops.trace))
      ensures r == Ok(true) ==> Asked(ops.trace) > old(Asked(ops.trace))
      ensures output.slots == old(output.slots)
      ensures r.Ok? && !sawLast && capture != null ==> Count() == old(Count()) + limit || Dry()
      ensures limit == 1 && !old(sawLast) && old(Coming(ops.script)).Some? ==>
        r == Ok(true) && ready == Plus(old(ready), old(Coming(ops.script))) && !sawLast
        && ops.script == Rest(Rest(old(ops.script))) && capture.slots == old(capture.slots)
    {
      hide Safe, Tracks, Honest, Held, InFlight, Inputs, Outs, Settings, ViewBy, Changes, Owes, Ended, Asked, Endings;
      hide Onward, AllShown, Shown, Plus, Within, Decoder.Valid;
      Moments();
      Counted();
      if sawLast { return Ok(false); }
      var any := false;
      for n := 0 to limit
        invariant Valid() && Inputs(ops.trace) == old(Inputs(ops.trace))
        invariant Settings(ops.trace) == old(Settings(ops.trace))
        invariant Went(old(ops.Moment()), old(gone), true) && Gained(old(ready), old(unanswered), old(lastPicture))
        invariant Count() == old(Count()) + n && (any <==> n > 0)
        invariant !sawLast && Endings(ops.trace) == old(Endings(ops.trace))
        invariant n > 0 ==> Asked(ops.trace) > old(Asked(ops.trace))
        invariant n == 0 ==> ops.Moment() == old(ops.Moment()) && ready == old(ready)
        invariant n == 0 ==> Offered() == old(Offered())
        invariant n == 0 && capture != null ==> capture.slots == old(capture.slots)
        invariant n == 1 && old(Coming(ops.script)).Some? ==>
          ready == Plus(old(ready), old(Coming(ops.script)))
          && ops.script == Rest(Rest(old(ops.script))) && capture.slots == old(capture.slots)
      {
        var more := CollectNext(threads);
        if more.Err? { return Err(more.error); }
        if !more.value { break; }
        any := true;
        if sawLast { break; }
      }
      r := Ok(any);
    }

    /** One buffer more, and its picture in line. */
    method CollectNext(threads: nat) returns (r: Result<bool, Error>)
      requires Valid()
      modifies this`sawLast, this`unanswered, this`lastPicture, this`gone, this`ready
      modifies ops, capture
      ensures Valid() && Inputs(ops.trace) == old(Inputs(ops.trace)) && Settings(ops.trace) == old(Settings(ops.trace))
      ensures Went(old(ops.Moment()), old(gone), r.Ok?) && Gained(old(ready), old(unanswered), old(lastPicture))
      ensures r.Ok? ==> Count() == old(Count()) + if r.value then 1 else 0
      ensures r.Ok? && old(Offered()).Some? ==> r.value
      ensures r.Ok? && (capture != null || r.value) ==> Asked(ops.trace) == old(Asked(ops.trace)) + 1
      ensures r.Ok? ==> (sawLast <==> old(sawLast) || Endings(ops.trace) > old(Endings(ops.trace)))
      ensures r == Ok(false) && capture != null && !sawLast ==> Dry()
      ensures old(Coming(ops.script)).Some? ==>
        r == Ok(true) && ready == Plus(old(ready), old(Coming(ops.script))) && sawLast == old(sawLast)
        && ops.script == Rest(Rest(old(ops.script))) && capture.slots == old(capture.slots)
    {
      hide Safe, Tracks, Honest, Held, InFlight, Inputs, Outs, Settings, ViewBy, Changes, Owes, Ended, Asked, Endings;
      hide Onward, AllShown, Shown, Within;
      Moments();
      Counted();
      var taken := TakeCapture(threads, handed + ready);
      if taken.Err? { return Err(taken.error); }
      if taken.value.Picture? {
        assert handed + (ready + [taken.value.frame]) == (handed + ready) + [taken.value.frame];
        ready := ready + [taken.value.frame];
      }
      r := Ok(!taken.value.Nothing?);
    }

    // ---- rebuilding the capture side ------------------------------------

    static method QueueAllAndStart(ops: V4l2Queue.Driver, queue: V4l2Queue.Queue) returns (r: Result<(), Error>)
      requires queue.side == Capture && Tracks(queue.slots, ops.trace, Capture) && Safe(ops.trace)
      modifies queue, ops`script, ops`trace
      ensures Onward(old(ops.Moment()), ops.Moment()) && Tracks(queue.slots, ops.trace, Capture) && Safe(ops.trace)
      ensures Grows(old(ops.trace), ops.trace, Capture) && |queue.slots| == |old(queue.slots)|
      ensures Settings(ops.trace) == old(Settings(ops.trace))
      ensures r.Ok? ==> queue.streaming && AllQueued(queue.slots)
    {
      hide Safe, Tracks, Settings, Onward, Grows;
      GrowsNot(ops.trace, Capture);
      OnwardStays(ops.Moment());
      var n := |queue.slots|;
      for i := 0 to n
        invariant Onward(old(ops.Moment()), ops.Moment()) && Tracks(queue.slots, ops.trace, Capture) && Safe(ops.trace)
        invariant Grows(old(ops.trace), ops.trace, Capture) && Settings(ops.trace) == old(Settings(ops.trace))
        invariant |queue.slots| == n && forall k :: 0 <= k < i ==> queue.slots[k].queued
      {
        ghost var before := ops.Moment();
        var done := QueueOne(ops, queue, i);
        GrowsOn(old(ops.trace), before.trace, ops.trace);
        OnwardOn(old(ops.Moment()), before, ops.Moment());
        if done.Err? { return Err(done.error); }
      }
      ghost var queued := ops.Moment();
      var on := queue.StreamOn(ops);
      OnwardOn(old(ops.Moment()), queued, ops.Moment());
      r := if on.Ok? then Ok(()) else Err(Error.Driver(on.error));
    }

    static method QueueOne(ops: V4l2Queue.Driver, queue: V4l2Queue.Queue, i: nat) returns (r: Result<(), Error>)
      requires queue.side == Capture && Tracks(queue.slots, ops.trace, Capture) && Safe(ops.trace)
      modifies queue`slots, ops`script, ops`trace
      ensures Onward(old(ops.Moment()), ops.Moment()) && Tracks(queue.slots, ops.trace, Capture) && Safe(ops.trace)
      ensures Grows(old(ops.trace), ops.trace, Capture) && Settings(ops.trace) == old(Settings(ops.trace))
      ensures if r.Ok? then i < |old(queue.slots)| && queue.slots == Flagged(old(queue.slots), i, true)
              else queue.slots == old(queue.slots)
    {
      hide Safe, Tracks, Honest, Held, Inputs, Outs, Settings, Asked, Endings, Onward, Grows;
      ghost var before := ops.trace;
      GrowsNot(before, Capture);
      var done := queue.Enqueue(ops, i, 0, 0);
      GrowsBy(before, before, Queued(Capture, i, 0, 0), Capture);
      GrowsBy(before, before, Declined(Capture, i), Capture);
      TraceSnoc(before, Queued(Capture, i, 0, 0));
      TraceSnoc(before, Declined(Capture, i));
      assert before + [] == before;
      r := if done.Err? then Err(Error.Queue(done.error)) else Ok(());
    }

    /** A capture queue at the format the driver reports, all of it queued and running:
        the format accepted, and the rectangle to show of it. */
    static method BringUpCapture(ops: V4l2Queue.Driver) returns (r: Result<(V4l2Queue.Queue, FormatInfo, Rect), Error>)
      requires Safe(ops.trace)
      modifies ops`script, ops`trace
      ensures Onward(old(ops.Moment()), ops.Moment()) && Safe(ops.trace) && Grows(old(ops.trace), ops.trace, Capture)
      ensures r.Ok? ==> fresh(r.value.0) && r.value.0.side == Capture && Tracks(r.value.0.slots, ops.trace, Capture)
      ensures r.Ok? ==> r.value.0.streaming && AllQueued(r.value.0.slots) && r.value.1.pixelFormat == NV12
      ensures r.Ok? ==> SetTo(old(Settings(ops.trace)), Settings(ops.trace), r.value.1, r.value.2)
    {
      hide Safe, Tracks, Honest, Held, InFlight, Inputs, Outs, Settings, ViewBy, Changes, Owes, Ended, Asked, Endings;
      hide Onward, Grows;
      Moments();
      GrowsNot(ops.trace, Capture);
      var format := NegotiateFormat(ops);
      if format.Err? { return Err(format.error); }
      var min := ops.Report();
      var count := Max(CAPTURE_BUFFERS, (if min.Ok? then min.value else 0) + 2);
      var queue := new V4l2Queue.Queue(Capture);
      ghost var before := ops.trace;
      var built := AllocateAndStart(ops, queue, count);
      GrowsOn(old(ops.trace), before, ops.trace);
      if built.Err? {
        before := ops.trace;
        var released := queue.Release(ops);
        GrowsOn(old(ops.trace), before, ops.trace);
        return Err(built.error);
      }
      before := ops.trace;
      var rect := VisibleRect(ops, format.value);
      GrowsOn(old(ops.trace), before, ops.trace);
      SetInTwo(old(Settings(ops.trace)), Settings(before), Settings(ops.trace), format.value, rect);
      r := Ok((queue, format.value, rect));
    }

    /** The driver's format, and what it accepts when asked for NV12. */
    static method NegotiateFormat(ops: V4l2Queue.Driver) returns (r: Result<FormatInfo, Error>)
      requires Safe(ops.trace)
      modifies ops`script, ops`trace
      ensures Onward(old(ops.Moment()), ops.Moment()) && Safe(ops.trace) && Grows(old(ops.trace), ops.trace, Capture)
      ensures r.Ok? ==>
        Settings(ops.trace) == old(Settings(ops.trace)) + [Coded(r.value)] && r.value.pixelFormat == NV12
    {
      hide Safe, Tracks, Honest, Held, InFlight, Inputs, Outs, Settings, ViewBy, Changes, Owes, Ended, Asked, Endings;
      hide Onward, Grows;
      Moments();
      GrowsNot(ops.trace, Capture);
      var reported := ops.GetFmt();
      if reported.Err? { return Err(Error.Driver(reported.error)); }
      ghost var before := ops.trace;
      var accepted := ops.SetFmt(Capture);
      if accepted.Err? { return Err(Error.Driver(accepted.error)); }
      TraceSnoc(before, Formatted(Capture, accepted.value));
      GrowsBy(before, before, Formatted(Capture, accepted.value), Capture);
      r := if accepted.value.pixelFormat == NV12 then Ok(accepted.value) else Err(Refused("driver refused NV12"));
    }

    static method AllocateAndStart(ops: V4l2Queue.Driver, queue: V4l2Queue.Queue, count: nat)
      returns (r: Result<(), Error>)
      requires queue.side == Capture && Safe(ops.trace)
      modifies queue, ops`script, ops`trace
      ensures Onward(old(ops.Moment()), ops.Moment()) && Safe(ops.trace) && Grows(old(ops.trace), ops.trace, Capture)
      ensures Settings(ops.trace) == old(Settings(ops.trace))
      ensures r.Ok? ==> Tracks(queue.slots, ops.trace, Capture) && queue.streaming && AllQueued(queue.slots)
    {
      hide Safe, Tracks, Honest, Held, InFlight, Inputs, Outs, Settings, ViewBy, Changes, Owes, Ended, Asked, Endings;
      hide Onward, Grows;
      Moments();
      GrowsNot(ops.trace, Capture);
      TraceSnoc(ops.trace, Freed(Capture));
      var granted := queue.Allocate(ops, count, true);
      GrowsBy(old(ops.trace), old(ops.trace), Freed(Capture), Capture);
      if granted.Err? { return Err(Error.Driver(granted.error)); }
      ghost var before := ops.trace;
      r := QueueAllAndStart(ops, queue);
      GrowsOn(old(ops.trace), before, ops.trace);
    }

    /** The compose rectangle, or the whole coded frame without one. */
    static method VisibleRect(ops: V4l2Queue.Driver, coded: FormatInfo) returns (rect: Rect)
      requires Safe(ops.trace)
      modifies ops`script, ops`trace
      ensures Onward(old(ops.Moment()), ops.Moment()) && Safe(ops.trace) && Grows(old(ops.trace), ops.trace, Capture)
      ensures ShownBy(old(Settings(ops.trace)), Settings(ops.trace), coded, rect)
      ensures forall slots :: Tracks(slots, old(ops.trace), Capture) ==> Tracks(slots, ops.trace, Capture)
    {
      hide Safe, Tracks, Honest, Held, InFlight, Inputs, Outs, Settings, ViewBy, Changes, Owes, Ended, Asked, Endings;
      hide Onward, Grows;
      ghost var before := ops.trace;
      GrowsNot(before, Capture);
      var asked := ops.Selection();
      GrowsBy(before, before, Composed(Capture, asked), Capture);
      TraceSnoc(before, Composed(Capture, asked));
      forall slots | Tracks(slots, before, Capture) ensures Tracks(slots, ops.trace, Capture) {
        TracksStep(slots, before, Capture, Composed(Capture, asked));
      }
      rect := if asked.Some? && asked.value.width > 0 && asked.value.height > 0 then asked.value
              else Rect(0, 0, coded.width, coded.height);
    }

    /** Waits until the device has something to say. */
    method Wait() returns (r: Result<(), Error>)
      requires Valid()
      modifies ops`script
      ensures Valid() && Onward(old(ops.Moment()), ops.Moment()) && ops.trace == old(ops.trace)
      ensures r.Ok? <==> Says(old(ops.script), Polled(false))
      ensures r.Ok? ==> ops.script == Rest(old(ops.script))
    {
      hide Onward;
      var polled := ops.Poll();
      if polled.Err? { return Err(Error.Driver(polled.error)); }
      r := if polled.value then Err(Refused("poll reported POLLERR")) else Ok(());
    }

    /** Collects the tail of a sequence, up to its last buffer: a bounded wait. */
    method DrainToLast(threads: nat) returns (r: Result<(), Error>)
      requires Valid()
      modifies this`sawLast, this`unanswered, this`lastPicture, this`gone, this`ready
      modifies ops, capture, output`slots
      ensures Valid() && Inputs(ops.trace) == old(Inputs(ops.trace)) && Settings(ops.trace) == old(Settings(ops.trace))
      ensures InFlight(output.slots) <= old(InFlight(output.slots)) && |output.slots| == |old(output.slots)|
      ensures Went(old(ops.Moment()), old(gone), r.Ok?) && Gained(old(ready), old(unanswered), old(lastPicture))
      ensures r.Ok? ==> (sawLast <==> Endings(ops.trace) > old(Endings(ops.trace)))
      ensures r.Ok? && capture != null ==> sawLast || Asked(ops.trace) > old(Asked(ops.trace)) + DRAIN_ROUNDS
    {
      hide Safe, Tracks, Honest, Held, InFlight, Inputs, Outs, Settings, ViewBy, Changes, Owes, Ended, Asked, Endings;
      hide Onward, AllShown, Shown, Within;
      sawLast := false;
      r := DrainRounds(threads);
    }

    method DrainRounds(threads: nat) returns (r: Result<(), Error>)
      requires Valid() && !sawLast
      modifies this`sawLast, this`unanswered, this`lastPicture, this`gone, this`ready
      modifies ops, capture, output`slots
      ensures Valid() && Inputs(ops.trace) == old(Inputs(ops.trace)) && Settings(ops.trace) == old(Settings(ops.trace))
      ensures InFlight(output.slots) <= old(InFlight(output.slots)) && |output.slots| == |old(output.slots)|
      ensures Went(old(ops.Moment()), old(gone), r.Ok?) && Gained(old(ready), old(unanswered), old(lastPicture))
      ensures r.Ok? ==> (sawLast <==> Endings(ops.trace) > old(Endings(ops.trace)))
      ensures r.Ok? && capture != null ==> sawLast || Asked(ops.trace) > old(Asked(ops.trace)) + DRAIN_ROUNDS
    {
      hide Safe, Tracks, Honest, Held, InFlight, Inputs, Outs, Settings, ViewBy, Changes, Owes, Ended, Asked, Endings;
      hide Onward, AllShown, Shown, Within, Decoder.Valid;
      Moments();
      Counted();
      for round := 0 to DRAIN_ROUNDS
        invariant Valid() && Inputs(ops.trace) == old(Inputs(ops.trace))
        invariant Settings(ops.trace) == old(Settings(ops.trace))
        invariant InFlight(output.slots) <= old(InFlight(output.slots)) && |output.slots| == |old(output.slots)|
        invariant Went(old(ops.Moment()), old(gone), true) && Gained(old(ready), old(unanswered), old(lastPicture))
        invariant !sawLast && Endings(ops.trace) == old(Endings(ops.trace))
        invariant capture != null ==> Asked(ops.trace) >= old(Asked(ops.trace)) + round
      {
        var collected := CollectCapture(USIZE_MAX, threads);
        if collected.Err? { return Err(collected.error); }
        if sawLast { return Ok(()); }
        var drained := DrainWaiting();
        if drained.Err? { return Err(drained.error); }
      }
      var collected := CollectCapture(USIZE_MAX, threads);
      r := if collected.Err? then Err(collected.error) else Ok(());
    }

    /** Inputs back, and a wait. */
    method DrainWaiting() returns (r: Result<(), Error>)
      requires Valid()
      modifies output`slots, ops`script, ops`trace
      ensures Valid() && Inputs(ops.trace) == old(Inputs(ops.trace)) && Settings(ops.trace) == old(Settings(ops.trace))
      ensures InFlight(output.slots) <= old(InFlight(output.slots)) && |output.slots| == |old(output.slots)|
      ensures Onward(old(ops.Moment()), ops.Moment()) && Outs(ops.trace) == old(Outs(ops.trace))
      ensures Asked(ops.trace) == old(Asked(ops.trace)) && Endings(ops.trace) == old(Endings(ops.trace))
    {
      hide Safe, Tracks, Honest, Held, InFlight, Inputs, Outs, Settings, ViewBy, Changes, Owes, Ended, Asked, Endings;
      hide Onward, AllShown, Shown, Within;
      Moments();
      var drained := DrainOutput();
      if drained.Err? { return Err(drained.error); }
      r := Wait();
    }

    /** A source change: the old sequence is finished first, then the capture side is
        restarted, or rebuilt when the format is another. */
    method ReconfigureCapture(threads: nat) returns (r: Result<(), Error>)
      requires Valid() && Owes(Settings(ops.trace))
      modifies this`sawLast, this`unanswered, this`lastPicture, this`gone, this`ready
      modifies this`capture, this`coded, this`visible, this`provisional
      modifies ops, capture, output`slots
      ensures Valid() && Inputs(ops.trace) == old(Inputs(ops.trace))
      ensures InFlight(output.slots) <= old(InFlight(output.slots)) && |output.slots| == |old(output.slots)|
      ensures Went(old(ops.Moment()), old(gone), r.Ok?) && Gained(old(ready), old(unanswered), old(lastPicture))
      ensures capture == null || capture == old(capture) || fresh(capture)
      ensures r.Ok? ==> Running() && !provisional && !sawLast && !Owes(Settings(ops.trace))
      ensures Changes(Settings(ops.trace)) == old(Changes(Settings(ops.trace)))
      ensures Ended(Settings(ops.trace)) == old(Ended(Settings(ops.trace)))
      ensures r.Ok? && capture == old(capture) ==> !old(provisional) && coded == old(coded)
      ensures r.Ok? && !old(provisional) ==>
        Endings(ops.trace) > old(Endings(ops.trace)) || Asked(ops.trace) > old(Asked(ops.trace)) + DRAIN_ROUNDS
    {
      hide Safe, Tracks, Honest, Held, InFlight, Inputs, Outs, Settings, ViewBy, Changes, Owes, Ended, Asked, Endings;
      hide Onward, AllShown, Shown, Within, Decoder.Core;
      Moments();
      Counted();
      if !(capture != null && provisional) {
        var drained := DrainToLast(threads);
        if drained.Err? { return Err(drained.error); }
      }
      if capture == null { return Err(Refused("capture queue missing")); }
      r := ReplaceCapture();
    }

    method ReplaceCapture() returns (r: Result<(), Error>)
      requires Valid() && capture != null && Owes(Settings(ops.trace))
      modifies this`sawLast, this`capture, this`coded, this`visible, this`provisional
      modifies ops`script, ops`trace, capture
      ensures Valid() && Inputs(ops.trace) == old(Inputs(ops.trace)) && Outs(ops.trace) == old(Outs(ops.trace))
      ensures Onward(old(ops.Moment()), ops.Moment())
      ensures capture == null || capture == old(capture) || fresh(capture)
      ensures r.Ok? ==> Running() && !provisional && !sawLast && !Owes(Settings(ops.trace))
      ensures Quiet(old(ops.trace))
      ensures r.Ok? ==> Reported(old(ops.script), old(capture.streaming)).Some?
      ensures r.Ok? ==> var f := Reported(old(ops.script), old(capture.streaming)).value;
        capture == old(capture) <==> !old(provisional) && SameFormat(f, old(coded))
      ensures r.Ok? && capture == old(capture) ==> coded == old(coded) && |capture.slots| == |old(capture.slots)|
      ensures r.Err? ==> capture == null && sawLast == old(sawLast)
    {
      hide Safe, Tracks, Honest, Held, InFlight, Inputs, Outs, Settings, ViewBy, Changes, Owes, Ended, Asked, Endings;
      hide Onward, AllShown, Within, Reported, SameFormat, AllQueued, Decoder.Valid;
      OwedWasTold(Settings(ops.trace));
      var queue := Detach();
      ghost var detached := ops.Moment();
      var restarted := Restart(queue);
      if restarted.Err? { return Err(restarted.error); }
      if restarted.value.Some? {
        Attach(queue, coded, restarted.value.value);
      } else {
        ghost var stopped := ops.Moment();
        var built := Rebuild(queue);
        OnwardOn(detached, stopped, ops.Moment());
        if built.Err? { return Err(built.error); }
        Attach(built.value.0, built.value.1, built.value.2);
      }
      r := Ok(());
    }

    /** The capture queue, out of the decoder. */
    method Detach() returns (queue: V4l2Queue.Queue)
      requires Valid() && capture != null
      modifies this`capture
      ensures Valid() && queue == old(capture) && capture == null && queue.side == Capture && queue != output
      ensures Tracks(queue.slots, ops.trace, Capture) && ViewOf(ops.trace) == View()
    {
      queue := capture;
      capture := null;
    }

    /** A capture queue at work, into the decoder. */
    method Attach(queue: V4l2Queue.Queue, coded: FormatInfo, visible: Rect)
      requires Valid() && capture == null && queue.side == Capture && Tracks(queue.slots, ops.trace, Capture)
      requires ViewOf(ops.trace) == V4l2Queue.View(false, coded, visible) && Changes(Settings(ops.trace)) > 0
      modifies this`capture, this`coded, this`visible, this`provisional, this`sawLast
      ensures Valid() && capture == queue && !sawLast
      ensures !provisional && this.coded == coded && this.visible == visible
    {
      hide Safe, Tracks, Honest, Held, InFlight, Inputs, Outs, Settings, ViewBy, Changes, Owes, Ended, AllShown, Within;
      capture, this.coded, this.visible, provisional, sawLast := queue, coded, visible, false, false;
    }

    /** Gives the old buffers back and sets up new ones. */
    method Rebuild(queue: V4l2Queue.Queue) returns (r: Result<(V4l2Queue.Queue, FormatInfo, Rect), Error>)
      requires Valid() && capture == null && queue.side == Capture && queue != output
      modifies queue, ops`script, ops`trace
      ensures Valid() && Inputs(ops.trace) == old(Inputs(ops.trace)) && Outs(ops.trace) == old(Outs(ops.trace))
      ensures Onward(old(ops.Moment()), ops.Moment()) && Quiet(old(ops.trace))
      ensures r.Ok? ==> fresh(r.value.0) && r.value.0.side == Capture && Tracks(r.value.0.slots, ops.trace, Capture)
      ensures r.Ok? ==> r.value.0.streaming && AllQueued(r.value.0.slots)
      ensures r.Ok? ==> ViewOf(ops.trace) == V4l2Queue.View(false, r.value.1, r.value.2) && !Owes(Settings(ops.trace))
    {
      hide Safe, Tracks, Honest, Held, InFlight, Inputs, Outs, Settings, ViewBy, Changes, Owes, Ended, Asked, Endings;
      hide AllShown, Within, Onward, Grows;
      Moments();
      ghost var before := ops.trace;
      var released := queue.Release(ops);
      OtherSide(output.slots, before, ops.trace, Capture);
      GrowsSet(before, ops.trace);
      if released.Err? { return Err(Error.Driver(released.error)); }
      ghost var middle := ops.trace;
      r := BringUpCapture(ops);
      OtherSide(output.slots, middle, ops.trace, Capture);
      GrowsSet(middle, ops.trace);
      if r.Ok? { BroughtUp(Settings(middle), Settings(ops.trace), r.value.1, r.value.2); }
    }

    /** Stops the old queue and, when the format has not changed, starts it again: its
        new rectangle, or nothing when it has to be rebuilt. */
    method Restart(queue: V4l2Queue.Queue) returns (r: Result<Option<Rect>, Error>)
      requires Valid() && capture == null && queue.side == Capture && Tracks(queue.slots, ops.trace, Capture)
      requires ViewOf(ops.trace) == View()
      modifies queue, ops`script, ops`trace
      ensures Valid() && Inputs(ops.trace) == old(Inputs(ops.trace)) && Outs(ops.trace) == old(Outs(ops.trace))
      ensures Onward(old(ops.Moment()), ops.Moment()) && Quiet(old(ops.trace))
      ensures r.Ok? ==> Tracks(queue.slots, ops.trace, Capture)
      ensures r.Ok? ==> Reported(old(ops.script), old(queue.streaming)).Some?
      ensures r.Ok? ==> var f := Reported(old(ops.script), old(queue.streaming)).value;
        r.value.Some? <==> !provisional && SameFormat(f, coded)
      ensures r.Ok? && r.value.Some? ==>
        queue.streaming && AllQueued(queue.slots) && |queue.slots| == |old(queue.slots)|
      ensures r.Ok? && r.value.Some? ==>
        ViewOf(ops.trace) == V4l2Queue.View(provisional, coded, r.value.value) && !Owes(Settings(ops.trace))
    {
      hide Safe, Tracks, Honest, Held, InFlight, Inputs, Outs, Settings, ViewBy, Changes, Owes, Ended, Asked, Endings;
      hide AllShown, Within, Onward, Grows, SameFormat;
      Moments();
      if queue.streaming {
        var stopped := StopCapture(queue);
        if stopped.Err? { return Err(stopped.error); }
      }
      var reported := ops.GetFmt();
      if reported.Err? { return Err(Error.Driver(reported.error)); }
      if provisional || !SameFormat(reported.value, coded) { return Ok(None); }
      r := StartAgain(queue);
    }

    method StopCapture(queue: V4l2Queue.Queue) returns (r: Result<(), Error>)
      requires Core() && capture == null && queue.side == Capture && Tracks(queue.slots, ops.trace, Capture)
      modifies queue, ops`script, ops`trace
      ensures Core() && Inputs(ops.trace) == old(Inputs(ops.trace)) && Outs(ops.trace) == old(Outs(ops.trace))
      ensures Settings(ops.trace) == old(Settings(ops.trace)) && Onward(old(ops.Moment()), ops.Moment())
      ensures Tracks(queue.slots, ops.trace, Capture) && ops.script == Rest(old(ops.script))
      ensures |queue.slots| == |old(queue.slots)|
    {
      hide Safe, Tracks, Honest, Held, InFlight, Inputs, Outs, Settings, ViewBy, Changes, Owes, Ended, Asked, Endings;
      hide Onward, Grows;
      ghost var before := ops.trace;
      GrowsNot(before, Capture);
      var stopped := queue.StopStream(ops);
      GrowsBy(before, before, Stopped(Capture), Capture);
      OtherSide(output.slots, before, ops.trace, Capture);
      TraceSnoc(before, Stopped(Capture));
      r := if stopped.Err? then Err(Error.Driver(stopped.error)) else Ok(());
    }

    /** The same buffers once more, under the rectangle the driver has now. */
    method StartAgain(queue: V4l2Queue.Queue) returns (r: Result<Option<Rect>, Error>)
      requires Core() && capture == null && queue.side == Capture && Tracks(queue.slots, ops.trace, Capture)
      requires ViewOf(ops.trace) == View()
      modifies queue, ops`script, ops`trace
      ensures Core() && Inputs(ops.trace) == old(Inputs(ops.trace)) && Outs(ops.trace) == old(Outs(ops.trace))
      ensures Onward(old(ops.Moment()), ops.Moment()) && Quiet(old(ops.trace))
      ensures r.Ok? ==> Tracks(queue.slots, ops.trace, Capture) && r.value.Some?
      ensures r.Ok? ==> queue.streaming && AllQueued(queue.slots) && |queue.slots| == |old(queue.slots)|
      ensures r.Ok? ==>
        ViewOf(ops.trace) == V4l2Queue.View(provisional, coded, r.value.value) && !Owes(Settings(ops.trace))
    {
      hide Safe, Tracks, Honest, Held, InFlight, Inputs, Outs, Settings, ViewBy, Changes, Owes, Ended, Asked, Endings;
      hide Onward, Grows;
      Moments();
      ghost var before := ops.trace;
      var rect := VisibleRect(ops, coded);
      OtherSide(output.slots, before, ops.trace, Capture);
      GrowsSet(before, ops.trace);
      ShownNow(Settings(before), Settings(ops.trace), coded, rect);
      ghost var middle := ops.trace;
      var started := QueueAllAndStart(ops, queue);
      OtherSide(output.slots, middle, ops.trace, Capture);
      r := if started.Err? then Err(started.error) else Ok(Some(rect));
    }

    /** What the driver has to tell, if anything; the end of the stream is remembered. */
    method Hear() returns (r: Result<Option<Event>, Error>)
      requires Valid()
      modifies this`finished, ops`script, ops`trace
      ensures Valid() && Onward(old(ops.Moment()), ops.Moment())
      ensures Inputs(ops.trace) == old(Inputs(ops.trace)) && Outs(ops.trace) == old(Outs(ops.trace))
      ensures Asked(ops.trace) == old(Asked(ops.trace)) && Endings(ops.trace) == old(Endings(ops.trace))
      ensures r.Ok? ==> ops.trace == old(ops.trace) + [Told(Capture, r.value)] && |ops.script| < |old(ops.script)|
      ensures r.Ok? ==> ops.script == Rest(old(ops.script))
      ensures r.Err? ==> Settings(ops.trace) == old(Settings(ops.trace))
      ensures r.Ok? ==>
        Settings(ops.trace) == old(Settings(ops.trace)) + if r.value.Some? then [News(r.value.value)] else []
      ensures finished <==> old(finished) || r == Ok(Some(EndOfStream))
      ensures Says(old(ops.script), Happens(None)) <==> r == Ok(None)
    {
      hide Safe, Tracks, Honest, Held, InFlight, Inputs, Outs, Settings, ViewBy, Changes, Owes, Ended, Asked, Endings;
      hide Onward, AllShown, Within, ViewOf, Formats, OutputOk, CaptureOk, NewsOk;
      ghost var before := ops.trace;
      var next := ops.DqEvent();
      if next.Err? { return Err(Error.Driver(next.error)); }
      ToldOf(before, next.value);
      ToldKeeps(output.slots, if capture != null then capture.slots else [], View(), finished, before, next.value);
      if next.value == Some(EndOfStream) { finished := true; }
      r := Ok(next.value);
    }

    /** Sees to everything the driver has to tell: a source change restarts or rebuilds the
        capture side. Whether there was anything. */
    method DrainEvents(threads: nat) returns (r: Result<bool, Error>)
      requires Valid()
      modifies this`sawLast, this`unanswered, this`lastPicture, this`gone, this`ready
      modifies this`capture, this`coded, this`visible, this`provisional, this`finished
      modifies ops, capture, output`slots
      ensures Valid() && Inputs(ops.trace) == old(Inputs(ops.trace))
      ensures InFlight(output.slots) <= old(InFlight(output.slots)) && |output.slots| == |old(output.slots)|
      ensures Went(old(ops.Moment()), old(gone), r.Ok?) && Gained(old(ready), old(unanswered), old(lastPicture))
      ensures capture == null || capture == old(capture) || fresh(capture)
      ensures r.Ok? ==> HeardAll(old(ops.trace), ops.trace)
      ensures r.Ok? ==> (r.value <==> Settings(ops.trace) != old(Settings(ops.trace)))
      ensures r.Ok? && Changes(Settings(ops.trace)) > old(Changes(Settings(ops.trace))) ==> Renewed()
      ensures Says(old(ops.script), Happens(None)) ==>
        && r == Ok(false) && ops.script == Rest(old(ops.script))
        && Unmoved(old(capture), old(View()), old(sawLast), old(ready))
        && (capture != null ==> capture.slots == old(capture.slots))
    {
      hide Safe, Tracks, Honest, Held, InFlight, Inputs, Outs, Settings, ViewBy, Changes, Owes, Ended, Asked, Endings;
      hide Onward, AllShown, Within, Decoder.Valid;
      Moments();
      Counted();
      var any := false;
      while true
        invariant Valid() && Inputs(ops.trace) == old(Inputs(ops.trace))
        invariant InFlight(output.slots) <= old(InFlight(output.slots)) && |output.slots| == |old(output.slots)|
        invariant Went(old(ops.Moment()), old(gone), true) && Gained(old(ready), old(unanswered), old(lastPicture))
        invariant capture == null || capture == old(capture) || fresh(capture)
        invariant any <==> |Settings(ops.trace)| > |old(Settings(ops.trace))|
        invariant !any ==> Settings(ops.trace) == old(Settings(ops.trace)) && ops.script == old(ops.script)
        invariant !any ==> Unmoved(old(capture), old(View()), old(sawLast), old(ready))
        invariant !any && capture != null ==> capture.slots == old(capture.slots)
        invariant any ==> !Says(old(ops.script), Happens(None))
        invariant Changes(Settings(ops.trace)) > old(Changes(Settings(ops.trace))) ==> Renewed()
        decreases |ops.script|
      {
        ghost var before := ops.Moment();
        var more := HearOne(threads);
        if more.Err? { return Err(more.error); }
        if !more.value {
          HearsNow(old(ops.Moment()), before);
          return Ok(any);
        }
        any := true;
      }
    }

    /** The capture side runs as the last source change asked for. */
    ghost predicate Renewed()
      reads this, ops, capture
    {
      Running() && !provisional && !sawLast && !Owes(Settings(ops.trace))
    }

    /** One event, if there is any, and what it asks for. */
    method HearOne(threads: nat) returns (r: Result<bool, Error>)
      requires Valid()
      modifies this`sawLast, this`unanswered, this`lastPicture, this`gone, this`ready
      modifies this`capture, this`coded, this`visible, this`provisional, this`finished
      modifies ops, capture, output`slots
      ensures Valid() && Inputs(ops.trace) == old(Inputs(ops.trace)) && (r.Ok? ==> |ops.script| < |old(ops.script)|)
      ensures InFlight(output.slots) <= old(InFlight(output.slots)) && |output.slots| == |old(output.slots)|
      ensures Went(old(ops.Moment()), old(gone), r.Ok?) && Gained(old(ready), old(unanswered), old(lastPicture))
      ensures capture == null || capture == old(capture) || fresh(capture)
      ensures Says(old(ops.script), Happens(None)) <==> r == Ok(false)
      ensures r == Ok(false) ==>
        ops.trace == old(ops.trace) + [Told(Capture, None)] && ops.script == Rest(old(ops.script))
      ensures r == Ok(false) ==> Settings(ops.trace) == old(Settings(ops.trace))
      ensures r == Ok(true) ==> |Settings(ops.trace)| > |old(Settings(ops.trace))|
      ensures r.Ok? && Changes(Settings(ops.trace)) > old(Changes(Settings(ops.trace))) ==> Renewed()
      ensures r.Ok? && Changes(Settings(ops.trace)) == old(Changes(Settings(ops.trace))) ==>
        && Unmoved(old(capture), old(View()), old(sawLast), old(ready))
        && (capture != null ==> capture.slots == old(capture.slots) && capture.streaming == old(capture.streaming))
    {
      hide Safe, Tracks, Honest, Held, InFlight, Inputs, Outs, Settings, ViewBy, Changes, Owes, Ended, Asked, Endings;
      hide Onward, AllShown, Within, Decoder.Valid;
      ghost var before, start := Settings(ops.trace), ops.Moment();
      var next := Hear();
      if next.Err? { return Err(next.error); }
      if next.value.None? {
        assert before + [] == before;
        return Ok(false);
      }
      NewsSnoc(before, News(next.value.value));
      if next.value.value == SourceChange(true) {
        ghost var told := ops.Moment();
        var done := ReconfigureCapture(threads);
        OnwardOn(start, told, ops.Moment());
        Later(told, ops.Moment());
        if done.Err? { return Err(done.error); }
      }
      r := Ok(true);
    }

    /** Waits for the device, sees to its events and takes inputs back: whether there was
        anything to do. */
    method Attend(threads: nat) returns (r: Result<bool, Error>)
      requires Valid()
      modifies this`sawLast, this`unanswered, this`lastPicture, this`gone, this`ready
      modifies this`capture, this`coded, this`visible, this`provisional, this`finished
      modifies ops, capture, output`slots
      ensures Valid() && Inputs(ops.trace) == old(Inputs(ops.trace)) && |output.slots| == |old(output.slots)|
      ensures Went(old(ops.Moment()), old(gone), r.Ok?) && Gained(old(ready), old(unanswered), old(lastPicture))
      ensures r.Ok? ==> |ops.script| < old(|ops.script|) && HeardAll(old(ops.trace), ops.trace)
      ensures capture == null || capture == old(capture) || fresh(capture)
      ensures old(Idle()) ==>
        && r == Ok(false) && ops.script == Rest(Rest(Rest(old(ops.script))))
        && Unmoved(old(capture), old(View()), old(sawLast), old(ready))
        && (capture != null ==> capture.slots == old(capture.slots))
    {
      hide Safe, Tracks, Honest, Held, InFlight, Inputs, Outs, Settings, ViewBy, Changes, Owes, Ended, Asked, Endings;
      hide Onward, AllShown, Shown, Within, HeardAll, Decoder.Valid;
      Moments();
      var woken := Wait();
      if woken.Err? { return Err(woken.error); }
      var events := DrainEvents(threads);
      if events.Err? { return Err(events.error); }
      ghost var heard := ops.Moment();
      var drained := DrainOutput();
      if drained.Err? { return Err(drained.error); }
      HeardOn(old(ops.trace), heard, ops.Moment());
      r := Ok(events.value || drained.value);
    }

    /** One round of waiting: events, inputs coming back, and one picture. */
    method WaitRound(budget: nat, threads: nat) returns (r: Result<Round, Error>)
      requires Valid()
      modifies this`sawLast, this`unanswered, this`lastPicture, this`gone, this`ready
      modifies this`capture, this`coded, this`visible, this`provisional, this`finished
      modifies ops, capture, output`slots
      ensures Valid() && Inputs(ops.trace) == old(Inputs(ops.trace)) && |output.slots| == |old(output.slots)|
      ensures Went(old(ops.Moment()), old(gone), r.Ok?) && Gained(old(ready), old(unanswered), old(lastPicture))
      ensures r.Ok? ==> |ops.script| < old(|ops.script|)
      ensures r.Ok? && r.value.Room? ==> InFlight(output.slots) < MAX_IN_FLIGHT
      ensures r.Ok? && r.value.Again? ==> r.value.budget <= budget
      ensures r.Ok? && r.value.Again? && r.value.budget < budget ==> Asked(ops.trace) > old(Asked(ops.trace))
      ensures capture == null || capture == old(capture) || fresh(capture)
    {
      hide Safe, Tracks, Honest, Held, InFlight, Inputs, Outs, Settings, ViewBy, Changes, Owes, Ended, Asked, Endings;
      hide Onward, AllShown, Shown, Within, Decoder.Valid;
      Moments();
      Counted();
      var progressed := Attend(threads);
      if progressed.Err? { return Err(progressed.error); }
      var n := output.CountInFlight();
      if n < MAX_IN_FLIGHT { return Ok(Room); }
      r := CollectOne(progressed.value, budget, threads);
    }

    /** One picture, and the input that comes back once the picture is out. */
    method CollectOne(progressed: bool, budget: nat, threads: nat) returns (r: Result<Round, Error>)
      requires Valid()
      modifies this`sawLast, this`unanswered, this`lastPicture, this`gone, this`ready
      modifies ops, capture, output`slots
      ensures Valid() && Inputs(ops.trace) == old(Inputs(ops.trace)) && |output.slots| == |old(output.slots)|
      ensures Went(old(ops.Moment()), old(gone), r.Ok?) && Gained(old(ready), old(unanswered), old(lastPicture))
      ensures r.Ok? ==> r.value.Again? && r.value.budget <= budget
      ensures r.Ok? && r.value.budget < budget ==> Asked(ops.trace) > old(Asked(ops.trace))
    {
      hide Safe, Tracks, Honest, Held, InFlight, Inputs, Outs, Settings, ViewBy, Changes, Owes, Ended, Asked, Endings;
      hide Onward, AllShown, Shown, Within, Decoder.Valid;
      Moments();
      Counted();
      var collected := CollectCapture(1, threads);
      if collected.Err? { return Err(collected.error); }
      if !collected.value { return Ok(Again(progressed, budget)); }
      var drained := DrainOutput();
      r := if drained.Err? then Err(drained.error) else Ok(Again(true, SatSub(budget, 1)));
    }

    method Time() returns (t: nat)
      requires Valid()
      modifies ops`clock, ops`read
      ensures Valid() && t == ops.read
    {
      hide Safe, Tracks, Honest, Held, InFlight, Inputs, Outs, Settings, ViewBy, AllShown, Within;
      t := ops.Now();
    }

    /** The deadline after a round, or nothing when it is time to give up. */
    method NextDeadline(progressed: bool, deadline: nat, absolute: nat) returns (r: Option<nat>)
      requires Valid()
      modifies ops`clock, ops`read
      ensures Valid()
    {
      hide Decoder.Valid;
      var now := Time();
      if !progressed && now >= deadline { return None; }
      var next := if progressed then now + STALL_POLL_MS else deadline;
      now := Time();
      r := if now >= absolute then None else Some(next);
    }

    /** Waits until there is room for one more input, collecting pictures meanwhile:
        gives what is left of the budget. */
    method WaitForSlot(wanted: nat, threads: nat) returns (r: Result<nat, Error>)
      requires Valid()
      modifies this`sawLast, this`unanswered, this`lastPicture, this`gone, this`ready
      modifies this`capture, this`coded, this`visible, this`provisional, this`finished
      modifies ops, capture, output`slots
      ensures Valid() && Inputs(ops.trace) == old(Inputs(ops.trace)) && |output.slots| == |old(output.slots)|
      ensures Went(old(ops.Moment()), old(gone), r.Ok?) && Gained(old(ready), old(unanswered), old(lastPicture))
      ensures r.Ok? ==> InFlight(output.slots) < MAX_IN_FLIGHT && r.value <= wanted
      ensures r.Ok? && r.value < wanted ==> Asked(ops.trace) > old(Asked(ops.trace))
      ensures old(InFlight(output.slots)) < MAX_IN_FLIGHT ==>
        && r == Ok(wanted) && finished == old(finished) && ops.Moment() == old(ops.Moment())
        && output.slots == old(output.slots) && Unmoved(old(capture), old(View()), old(sawLast), old(ready))
        && (capture != null ==> capture.slots == old(capture.slots))
      ensures capture == null || capture == old(capture) || fresh(capture)
    {
      hide Safe, Tracks, Honest, Held, InFlight, Inputs, Outs, Settings, ViewBy, Changes, Owes, Ended, Asked, Endings;
      hide Onward, AllShown, Shown, Within, Decoder.Valid;
      Moments();
      Counted();
      var entered := Time();
      var absolute: nat := entered + 4 * STALL_POLL_MS;
      var deadline: nat := entered + STALL_POLL_MS;
      var budget: nat := wanted;
      var n := output.CountInFlight();
      while n >= MAX_IN_FLIGHT
        invariant n == InFlight(output.slots) && budget <= wanted
        invariant Valid() && Inputs(ops.trace) == old(Inputs(ops.trace)) && |output.slots| == |old(output.slots)|
        invariant Went(old(ops.Moment()), old(gone), true) && Gained(old(ready), old(unanswered), old(lastPicture))
        invariant capture == null || capture == old(capture) || fresh(capture)
        invariant budget < wanted ==> Asked(ops.trace) > old(Asked(ops.trace))
        invariant old(InFlight(output.slots)) < MAX_IN_FLIGHT ==>
          && budget == wanted && finished == old(finished) && ops.Moment() == old(ops.Moment())
          && output.slots == old(output.slots) && Unmoved(old(capture), old(View()), old(sawLast), old(ready))
          && (capture != null ==> capture.slots == old(capture.slots))
        decreases |ops.script|
      {
        var round := WaitRound(budget, threads);
        if round.Err? { return Err(round.error); }
        if round.value.Room? { return Ok(budget); }
        budget := round.value.budget;
        var next := NextDeadline(round.value.progressed, deadline, absolute);
        if next.None? { return Err(Stalled); }
        deadline := next.value;
        n := output.CountInFlight();
      }
      r := Ok(budget);
    }

    // ---- what the caller sees -------------------------------------------

    /** Copies an access unit into a free input buffer and gives it to the driver. */
    method Feed(slot: nat, data: seq<u8>, timestampUs: nat) returns (r: Result<(), Error>)
      requires Valid() && Free(output.slots, slot) && InFlight(output.slots) < MAX_IN_FLIGHT
      modifies this`unanswered, output`slots, ops`script, ops`trace
      ensures Valid() && |output.slots| == |old(output.slots)| && Onward(old(ops.Moment()), ops.Moment())
      ensures Outs(ops.trace) == old(Outs(ops.trace)) && Settings(ops.trace) == old(Settings(ops.trace))
      ensures r.Ok? ==> |data| <= |output.slots[slot].memory| && output.slots[slot].memory[..|data|] == data
                        && output.slots[slot].queued
                        && Inputs(ops.trace) == old(Inputs(ops.trace)) + [(|data|, timestampUs)]
      ensures unanswered == old(unanswered) + if r.Ok? then 1 else 0
      ensures Asked(ops.trace) == old(Asked(ops.trace)) && (r.Ok? ==> ops.script == Rest(old(ops.script)))
      ensures r.Ok? ==>
        ops.trace == old(ops.trace) + [Touched(Output, slot)] + [Queued(Output, slot, |data|, timestampUs)]
      ensures r.Err? ==> Inputs(ops.trace) == old(Inputs(ops.trace))
      ensures |data| <= |old(output.slots)[slot].memory| && Says(old(ops.script), Fine) ==> r.Ok?
    {
      hide Safe, Tracks, Honest, Held, InFlight, Inputs, Outs, Settings, ViewBy, Changes, Owes, Ended, Asked, Endings;
      hide Onward, AllShown;
      Moments();
      if |data| > |output.slots[slot].memory| { return Err(Refused("access unit exceeds the output buffer")); }
      Fill(slot, data);
      ghost var before, slots := ops.trace, output.slots;
      var given := output.Enqueue(ops, slot, |data|, timestampUs);
      Handed(if capture != null then capture.slots else [], before, Queued(Output, slot, |data|, timestampUs));
      Handed(if capture != null then capture.slots else [], before, Declined(Output, slot));
      if given.Err? {
        assert before + [] == before;
        return Err(Error.Queue(given.error));
      }
      FlagCounts(slots, slot, output.slots[slot]);
      unanswered := unanswered + 1;
      r := Ok(());
    }

    /** The bytes into the buffer, while the driver does not hold it. */
    method Fill(slot: nat, data: seq<u8>)
      requires Valid() && Free(output.slots, slot) && |data| <= |output.slots[slot].memory|
      modifies output`slots, ops`trace
      ensures Valid() && |output.slots| == |old(output.slots)| && Onward(old(ops.Moment()), ops.Moment())
      ensures Outs(ops.trace) == old(Outs(ops.trace)) && Settings(ops.trace) == old(Settings(ops.trace))
      ensures Inputs(ops.trace) == old(Inputs(ops.trace)) && InFlight(output.slots) == old(InFlight(output.slots))
      ensures ops.trace == old(ops.trace) + [Touched(Output, slot)] && ops.script == old(ops.script)
      ensures Asked(ops.trace) == old(Asked(ops.trace))
      ensures Free(output.slots, slot) && |data| <= |output.slots[slot].memory|
      ensures output.slots[slot].memory[..|data|] == data
    {
      hide Safe, Tracks, Honest, Held, InFlight, Inputs, Outs, Settings, ViewBy, Changes, Owes, Ended, Asked, Endings;
      hide Onward, AllShown;
      ghost var before, slots := ops.trace, output.slots;
      TouchIsSafe(slots, before, Output, slot);
      TraceSnoc(before, Touched(Output, slot));
      Unasked(ops.script, before, Output, slot);
      if capture != null { TracksStep(capture.slots, before, Capture, Touched(Output, slot)); }
      var memory := output.slots[slot].memory;
      output.slots := output.slots[slot := Slot(data + memory[|data|..], false)];
      ops.trace := ops.trace + [Touched(Output, slot)];
      SameFlags(slots, output.slots, ops.trace, Output);
      FlagCounts(slots, slot, output.slots[slot]);
    }

    /** The next picture in line. */
    method PopReady() returns (f: Option<Frame>)
      requires Valid()
      modifies this`ready, this`handed
      ensures Valid() && Pictures() == old(Pictures()) && handed == Plus(old(handed), f)
      ensures f == Next(Pictures(), |old(handed)|) && f == Next(old(ready), 0)
      ensures ready == if f.Some? then old(ready)[1..] else []
    {
      hide AllShown;
      if ready == [] {
        assert handed + ready == handed;
        return None;
      }
      f := Some(ready[0]);
      assert handed + ready == (handed + [ready[0]]) + ready[1..];
      ready, handed := ready[1..], handed + [ready[0]];
    }

    /** One access unit in, at most one picture out: the next one due. */
    method Decode(data: seq<u8>, timestampUs: nat, threads: nat) returns (r: Result<Option<Frame>, FeedError>)
      requires Valid()
      modifies this, ops, capture, output
      ensures Valid() && Went(old(ops.Moment()), old(gone), r.Ok?)
      ensures capture == null || capture == old(capture) || fresh(capture)
      ensures r != Err(NoFreeBuffer)
      ensures r.Ok? ==> Inputs(ops.trace) == old(Inputs(ops.trace)) + [(|data|, timestampUs)]
      ensures r.Ok? ==> HeardAfter(old(ops.trace), ops.trace, |data|, timestampUs)
      ensures r.Ok? ==> Pending(old(|handed| + |ready|), old(unanswered), old(lastPicture))
      ensures r == Ok(None) ==> !Stuck()
      ensures r.Ok? ==> Served(old(ops.trace))
      ensures !StartCode(data) || |data| > OUTPUT_BUFFER_SIZE || old(finished) ==>
        r.Err? && ops.Moment() == old(ops.Moment())
      ensures old(Smooth(data)) ==> r == Ok(Next(Plus(old(ready), old(ComingAfter(Rest(ops.script)))), 0))
      ensures r.Ok? ==> r.value == Next(Pictures(), |old(handed)|) && handed == Plus(old(handed), r.value)
      ensures r.Err? ==> handed == old(handed)
      ensures r.Err? ==> Inputs(ops.trace) == old(Inputs(ops.trace))
                         || Inputs(ops.trace) == old(Inputs(ops.trace)) + [(|data|, timestampUs)]
    {
      hide Safe, Tracks, Honest, Held, InFlight, Inputs, Outs, Settings, ViewBy, Changes, Owes, Ended, Asked, Endings;
      hide Onward, AllShown, Shown, Within, StartCode, HeardAll, HeardAfter, Decoder.Valid;
      Moments();
      var unfit := Unfit(data);
      if unfit.Some? { return Err(Other(unfit.value)); }
      var waited := WaitForSlot(1, threads);
      if waited.Err? { return Err(Other(waited.error)); }
      ghost var waiting := ops.Moment();
      r := FeedAndTake(data, timestampUs, waited.value, threads);
      Later(old(ops.Moment()), waiting);
      Later(waiting, ops.Moment());
      OnwardKeeps(old(ops.Moment()), waiting);
      if r.Ok? { HeardEarlier(old(ops.trace), waiting.trace, ops.trace, |data|, timestampUs); }
    }

    /** What refuses an access unit before anything is done with it. */
    method Unfit(data: seq<u8>) returns (r: Option<Error>)
      ensures r.Some? <==> !StartCode(data) || |data| > OUTPUT_BUFFER_SIZE || finished
    {
      if !StartCode(data) { return Some(Refused("not an Annex B access unit")); }
      if |data| > OUTPUT_BUFFER_SIZE { return Some(Refused("access unit exceeds the decoder buffer")); }
      if finished { return Some(Refused("end of stream")); }
      r := None;
    }

    /** A buffer to put an access unit in; there is one as long as not all are with the
        driver. */
    method FreeBuffer() returns (r: Result<nat, FeedError>)
      ensures r == (if FirstFree(output.slots).Some? then Ok(FirstFree(output.slots).value) else Err(NoFreeBuffer))
      ensures r == Err(NoFreeBuffer) <==> InFlight(output.slots) == |output.slots|
      ensures r.Ok? ==> Free(output.slots, r.value)
    {
      FreeExists(output.slots);
      var slot := output.FreeSlot();
      r := if slot.Some? then Ok(slot.value) else Err(NoFreeBuffer);
    }

    method FeedAndTake(data: seq<u8>, timestampUs: nat, budget: nat, threads: nat)
      returns (r: Result<Option<Frame>, FeedError>)
      requires Valid() && InFlight(output.slots) < MAX_IN_FLIGHT
      modifies this, ops, capture, output
      ensures Valid() && Went(old(ops.Moment()), old(gone), r.Ok?)
      ensures capture == null || capture == old(capture) || fresh(capture)
      ensures r != Err(NoFreeBuffer)
      ensures Took(r, old(ops.trace), old(handed), |data|, timestampUs)
      ensures r.Ok? ==> Pending(old(|handed| + |ready|), old(unanswered), old(lastPicture))
      ensures r.Ok? && budget > 0 ==> Served(old(ops.trace))
      ensures old(Smooth(data)) && budget == 1 ==>
        r == Ok(Next(Plus(old(ready), old(ComingAfter(Rest(ops.script)))), 0))
    {
      hide Safe, Tracks, Honest, Held, InFlight, Inputs, Outs, Settings, ViewBy, Changes, Owes, Ended, Asked, Endings;
      hide Onward, AllShown, Shown, Within, StartCode, HeardAll, HeardAfter, Decoder.Valid;
      Moments();
      var slot := FreeBuffer();
      r := FeedInto(slot, data, timestampUs, budget, threads);
    }

    method FeedInto(slot: Result<nat, FeedError>, data: seq<u8>, timestampUs: nat, budget: nat, threads: nat)
      returns (r: Result<Option<Frame>, FeedError>)
      requires Valid() && InFlight(output.slots) < MAX_IN_FLIGHT && (slot.Ok? ==> Free(output.slots, slot.value))
      modifies this, ops, capture, output
      ensures Valid() && Went(old(ops.Moment()), old(gone), r.Ok?)
      ensures capture == null || capture == old(capture) || fresh(capture)
      ensures r == Err(NoFreeBuffer) ==> slot == Err(NoFreeBuffer)
      ensures Took(r, old(ops.trace), old(handed), |data|, timestampUs)
      ensures r.Ok? ==> Pending(old(|handed| + |ready|), old(unanswered), old(lastPicture))
      ensures r.Ok? && budget > 0 ==> Served(old(ops.trace))
      ensures old(Smooth(data)) && budget == 1 && slot.Ok? ==>
        r == Ok(Next(Plus(old(ready), old(ComingAfter(Rest(ops.script)))), 0))
    {
      hide Safe, Tracks, Honest, Held, InFlight, Inputs, Outs, Settings, ViewBy, Changes, Owes, Ended, Asked, Endings;
      hide Onward, AllShown, Shown, Within, StartCode, HeardAll, HeardAfter, Decoder.Valid;
      OnwardStays(ops.Moment());
      if slot.Err? { return Err(slot.error); }
      var settled := FeedAndSettle(slot.value, data, timestampUs, budget, threads);
      if settled.Err? { return Err(Other(settled.error)); }
      var f := PopReady();
      r := Ok(f);
    }

    method FeedAndSettle(slot: nat, data: seq<u8>, timestampUs: nat, budget: nat, threads: nat)
      returns (r: Result<(), Error>)
      requires Valid() && Free(output.slots, slot) && InFlight(output.slots) < MAX_IN_FLIGHT
      modifies this`sawLast, this`unanswered, this`lastPicture, this`gone, this`ready
      modifies this`capture, this`coded, this`visible, this`provisional, this`finished
      modifies ops, capture, output`slots
      ensures Valid() && Went(old(ops.Moment()), old(gone), r.Ok?) && old(ready) <= ready
      ensures capture == null || capture == old(capture) || fresh(capture)
      ensures Inputs(ops.trace) == old(Inputs(ops.trace)) + [(|data|, timestampUs)]
              || (r.Err? && Inputs(ops.trace) == old(Inputs(ops.trace)))
      ensures r.Ok? ==> HeardAfter(old(ops.trace), ops.trace, |data|, timestampUs)
      ensures r.Ok? ==> Gained(old(ready), old(unanswered) + 1, old(lastPicture)) && (ready != [] || !Stuck())
      ensures r.Ok? && budget > 0 ==> Served(old(ops.trace))
      ensures old(Smooth(data)) && budget == 1 ==>
        r.Ok? && ready == Plus(old(ready), old(ComingAfter(Rest(ops.script))))
    {
      hide Safe, Tracks, Honest, Held, InFlight, Inputs, Outs, Settings, ViewBy, Changes, Owes, Ended, Asked, Endings;
      hide Onward, AllShown, Shown, Within, StartCode, HeardAll, HeardAfter, Decoder.Valid;
      Moments();
      var fed := Feed(slot, data, timestampUs);
      if fed.Err? { return Err(fed.error); }
      ghost var given := ops.Moment();
      r := Settle(budget, threads);
      OnwardKeeps(given, ops.Moment());
      if r.Ok? { FedAndHeard(old(ops.trace), slot, |data|, timestampUs, ops.trace); }
    }

    /** After an input: events, a picture within the budget, and the stall check. */
    method Settle(budget: nat, threads: nat) returns (r: Result<(), Error>)
      requires Valid()
      modifies this`sawLast, this`unanswered, this`lastPicture, this`gone, this`ready
      modifies this`capture, this`coded, this`visible, this`provisional, this`finished
      modifies ops, capture, output`slots
      ensures Valid() && Inputs(ops.trace) == old(Inputs(ops.trace))
      ensures Went(old(ops.Moment()), old(gone), r.Ok?) && Gained(old(ready), old(unanswered), old(lastPicture))
      ensures capture == null || capture == old(capture) || fresh(capture)
      ensures r.Ok? ==> HeardAll(old(ops.trace), ops.trace)
      ensures r.Ok? && budget > 0 ==> Served(old(ops.trace))
      ensures r.Ok? ==> ready != [] || !Stuck()
      ensures var f := old(ComingAfter(ops.script));
        budget == 1 && !old(sawLast) && f.Some? ==> r.Ok? && ready == Plus(old(ready), f)
    {
      hide Safe, Tracks, Honest, Held, InFlight, Inputs, Outs, Settings, ViewBy, Changes, Owes, Ended, Asked, Endings;
      hide Onward, AllShown, Shown, Within, HeardAll, Decoder.Valid, Decoder.ComingAfter;
      r := Serve(budget, threads);
      if r.Err? { return; }
      var now := Time();
      var stalled := ready == [] && unanswered >= STALL_INPUTS && SatSub(now, lastPicture) >= STALL_POLL_MS;
      r := if stalled then Err(Stalled) else Ok(());
    }

    /** Events, and a picture within the budget. */
    method Serve(budget: nat, threads: nat) returns (r: Result<(), Error>)
      requires Valid()
      modifies this`sawLast, this`unanswered, this`lastPicture, this`gone, this`ready
      modifies this`capture, this`coded, this`visible, this`provisional, this`finished
      modifies ops, capture, output`slots
      ensures Valid() && Inputs(ops.trace) == old(Inputs(ops.trace))
      ensures Went(old(ops.Moment()), old(gone), r.Ok?) && Gained(old(ready), old(unanswered), old(lastPicture))
      ensures capture == null || capture == old(capture) || fresh(capture)
      ensures r.Ok? ==> HeardAll(old(ops.trace), ops.trace)
      ensures r.Ok? && budget > 0 ==> Served(old(ops.trace))
      ensures var f := old(ComingAfter(ops.script));
        budget == 1 && !old(sawLast) && f.Some? ==> r.Ok? && ready == Plus(old(ready), f)
    {
      hide Safe, Tracks, Honest, Held, InFlight, Inputs, Outs, Settings, ViewBy, Changes, Owes, Ended, Asked, Endings;
      hide Onward, AllShown, Shown, Within, HeardAll, Decoder.Valid;
      Moments();
      var events := DrainEvents(threads);
      if events.Err? { return Err(events.error); }
      if budget == 0 { return Ok(()); }
      ghost var heard := ops.Moment();
      Later(old(ops.Moment()), heard);
      var collected := CollectCapture(budget, threads);
      if collected.Err? { return Err(collected.error); }
      HeardOn(old(ops.trace), heard, ops.Moment());
      r := Ok(());
    }

    /** The next picture due, without feeding and without waiting. */
    method PollFrame(threads: nat) returns (r: Result<Option<Frame>, Error>)
      requires Valid()
      modifies this, ops, capture, output
      ensures Valid() && Inputs(ops.trace) == old(Inputs(ops.trace)) && Went(old(ops.Moment()), old(gone), r.Ok?)
      ensures capture == null || capture == old(capture) || fresh(capture)
      ensures r.Ok? ==> r.value == Next(Pictures(), |old(handed)|) && handed == Plus(old(handed), r.value)
      ensures old(ready) != [] ==> r == Ok(Some(old(ready)[0])) && ops.Moment() == old(ops.Moment())
      ensures r.Err? ==> handed == old(handed)
      ensures r.Ok? && old(ready) == [] ==> HeardAll(old(ops.trace), ops.trace) && Served(old(ops.trace))
      ensures old(Idle()) && old(ready) == [] && !old(sawLast) ==>
        r == Ok(old(Coming(Rest(Rest(Rest(ops.script))))))
    {
      hide Safe, Tracks, Honest, Held, InFlight, Inputs, Outs, Settings, ViewBy, Changes, Owes, Ended, Asked, Endings;
      hide Onward, AllShown, Shown, Within, StartCode, HeardAll, HeardAfter, Decoder.Valid;
      Moments();
      var f := PopReady();
      if f.Some? { return Ok(f); }
      var pulled := Pull(threads);
      if pulled.Err? { return Err(pulled.error); }
      f := PopReady();
      r := Ok(f);
    }

    /** Collects what the driver has ready. */
    method Pull(threads: nat) returns (r: Result<(), Error>)
      requires Valid()
      modifies this`sawLast, this`unanswered, this`lastPicture, this`gone, this`ready
      modifies this`capture, this`coded, this`visible, this`provisional, this`finished
      modifies ops, capture, output`slots
      ensures Valid() && Inputs(ops.trace) == old(Inputs(ops.trace))
      ensures Went(old(ops.Moment()), old(gone), r.Ok?) && Gained(old(ready), old(unanswered), old(lastPicture))
      ensures capture == null || capture == old(capture) || fresh(capture)
      ensures r.Ok? ==> HeardAll(old(ops.trace), ops.trace) && Served(old(ops.trace))
      ensures old(Idle()) && !old(sawLast) ==>
        r.Ok? && ready == Plus(old(ready), old(Coming(Rest(Rest(Rest(ops.script))))))
    {
      hide Safe, Tracks, Honest, Held, InFlight, Inputs, Outs, Settings, ViewBy, Changes, Owes, Ended, Asked, Endings;
      hide Onward, AllShown, Shown, Within, HeardAll, Decoder.Valid;
      Moments();
      var attended := Attend(threads);
      if attended.Err? { return Err(attended.error); }
      ghost var heard := ops.Moment();
      Later(old(ops.Moment()), heard);
      var collected := CollectCapture(1, threads);
      if collected.Err? { return Err(collected.error); }
      HeardOn(old(ops.trace), heard, ops.Moment());
      r := Ok(());
    }
  }

  /** A picture shown is in line, behind those of the buffers before it. */
  lemma {:induction false} ShownIsDue(outs: seq<Back>, gone: set<nat>, k: nat)
    requires k < |outs| && k !in gone && Shown(outs[k]).Some?
    ensures Next(AllShown(outs, gone), |AllShown(outs[..k], gone)|) == Shown(outs[k])
    decreases |outs|
  {
    hide Shown;
    var front := outs[..|outs| - 1];
    if k < |front| {
      assert front[..k] == outs[..k];
      ShownIsDue(front, gone, k);
    }
  }

  /** Once a source change has been seen to, every buffer that comes back, in this call or
      any later one, is a picture to hand out, in its place: unless it is empty, out of
      bounds, or lost with a failed call. */
  lemma DueAfterChange(d: Decoder, before: seq<Call>, k: nat)
    requires d.Valid() && before <= d.ops.trace && !ViewOf(before).provisional
    requires |Outs(before)| <= k < d.Count() && k !in d.gone
    ensures var outs := Outs(d.ops.trace);
      var b := outs[k];
      !b.view.provisional
      && (b.d.bytesUsed > 0 && PictureOf(b.view.coded, b.view.visible, b.d).Some? ==>
            Next(d.Pictures(), |AllShown(outs[..k], d.gone)|) == PictureOf(b.view.coded, b.view.visible, b.d))
  {
    hide PictureOf, Outs, ViewBy, AllShown, Decoder.Valid;
    NeverProvisionalAgain(before, d.ops.trace);
    if Shown(Outs(d.ops.trace)[k]).Some? { ShownIsDue(Outs(d.ops.trace), d.gone, k); }
  }

  /** A change that was told of and is not owed has been seen to. */
  lemma SeenTo(d: Decoder)
    requires d.Valid() && d.capture != null
    requires Changes(Settings(d.ops.trace)) > 0 && !Owes(Settings(d.ops.trace))
    ensures !d.provisional && !ViewOf(d.ops.trace).provisional
  {
  }

  /** A dequeue on the capture side is none of the output side's business. */
  lemma CameBack(slots: seq<Slot>, before: seq<Call>, after: seq<Call>, q: Dequeue)
    requires after == before + [Dequeueing(Capture, q)]
    requires Tracks(slots, before, Output)
    ensures Tracks(slots, after, Output) && Inputs(after) == Inputs(before)
    ensures Settings(after) == Settings(before)
    ensures Outs(after) == if q.Buffer? then Outs(before) + [Back(q.d, ViewOf(before))] else Outs(before)
    ensures Asked(after) == Asked(before) + 1
    ensures Endings(after)
         == Endings(before) + if (q.Buffer? && q.d.last) || q.EndOfSequence? then 1 else 0
  {
    TraceSnoc(before, Dequeueing(Capture, q));
    TracksStep(slots, before, Output, Dequeueing(Capture, q));
  }

  /** An input going in, taken or not, is none of the capture side's. */
  lemma Handed(slots: seq<Slot>, before: seq<Call>, c: Call)
    requires c.side == Output && (c.Queued? || c.Declined? || c.Touched?)
    ensures var after := before + [c];
      && (Tracks(slots, before, Capture) ==> Tracks(slots, after, Capture)) && Outs(after) == Outs(before)
      && Inputs(after) == (if c.Queued? then Inputs(before) + [(c.bytesUsed, c.timestampUs)] else Inputs(before))
      && Settings(after) == Settings(before) && Asked(after) == Asked(before) && Endings(after) == Endings(before)
  {
    TraceSnoc(before, c);
    if Tracks(slots, before, Capture) { TracksStep(slots, before, Capture, c); }
  }

  /** Being told of something moves no buffer. */
  lemma ToldOf(before: seq<Call>, e: Option<Event>)
    ensures var after, s := before + [Told(Capture, e)], Settings(before);
      && (Safe(before) ==> Safe(after)) && Inputs(after) == Inputs(before) && Outs(after) == Outs(before)
      && Asked(after) == Asked(before) && Endings(after) == Endings(before)
      && Settings(after) == s + (if e.Some? then [News(e.value)] else [])
      && Changes(Settings(after)) == Changes(s) + (if e == Some(SourceChange(true)) then 1 else 0)
      && (Owes(Settings(after)) <==> e == Some(SourceChange(true)) || Owes(s))
      && (Ended(Settings(after)) <==> e == Some(EndOfStream) || Ended(s))
      && ViewOf(after) == ViewOf(before) && Formats(Settings(after)) == Formats(s)
  {
    hide Changes, Owes, Ended, ViewBy, Formats, Tracks, Safe, Honest, Held, Inputs, Outs, Asked, Endings, Settings;
    TraceSnoc(before, Told(Capture, e));
    if e.Some? { NewsSnoc(Settings(before), News(e.value)); }
    assert Settings(before) + [] == Settings(before);
  }

  /** Nor is its going back, taken or not. */
  lemma GaveBack(slots: seq<Slot>, before: seq<Call>, c: Call)
    requires Tracks(slots, before, Output) && c.side == Capture && (c.Queued? || c.Declined?)
    ensures var after := before + [c];
      && Tracks(slots, after, Output) && Inputs(after) == Inputs(before) && Outs(after) == Outs(before)
      && Settings(after) == Settings(before) && Asked(after) == Asked(before)
      && Endings(after) == Endings(before) + if c.Declined? then 1 else 0
  {
    TraceSnoc(before, c);
    TracksStep(slots, before, Output, c);
  }

  lemma GrowsOn(before: seq<Call>, middle: seq<Call>, after: seq<Call>)
    requires Grows(before, middle, Capture) && Grows(middle, after, Capture)
    ensures Grows(before, after, Capture)
  {
    assert after[..|before|] == after[..|middle|][..|before|];
    forall k | |before| <= k < |after| ensures Inner(after[k], Capture) {
      if k < |middle| { assert after[k] == after[..|middle|][k]; }
    }
  }
}
