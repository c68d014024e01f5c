/** Rebuilding frames from datagrams, and asking for what is missing. */
module Reassembly {
  import opened Common
  import opened Wire
  import opened Frames

  const DECODE_MARGIN_US: nat := 10_000

  datatype Nack = Nack(frameNumber: u32, missing: seq<u16>)

  datatype Partial = Partial(
    stream: u8,
    timestampUs: u64,
    keyframe: bool,
    firstSeenUs: nat,
    parts: seq<Option<seq<u8>>>,
    received: nat)

  /** The value of a reassembler between two calls. */
  datatype State = State(
    maxAgeUs: nat,
    partials: map<u32, Partial>,
    newestCompleted: Option<u32>,
    lost: nat)

  function Fresh(maxAgeUs: nat): State { State(maxAgeUs, map[], None, 0) }

  // ---- fragments of one frame -------------------------------------------

  function EmptySlots(k: nat): seq<Option<seq<u8>>> { seq(k, _ => None) }

  function Filled(parts: seq<Option<seq<u8>>>): (r: nat)
    ensures r <= |parts|
  {
    if parts == [] then 0 else (if parts[0].Some? then 1 else 0) + Filled(parts[1..])
  }

  function Join(parts: seq<Option<seq<u8>>>): seq<u8> {
    if parts == [] then []
    else (if parts[0].Some? then parts[0].value else []) + Join(parts[1..])
  }

  /** Indices `from..` of the empty slots, ascending. */
  function EmptyFrom(parts: seq<Option<seq<u8>>>, from: nat): seq<u16>
    requires from <= |parts| <= MAX_FRAGMENTS
    decreases |parts| - from
  {
    if from == |parts| then []
    else (if parts[from].None? then [from] else []) + EmptyFrom(parts, from + 1)
  }

  lemma {:induction false} FilledSet(parts: seq<Option<seq<u8>>>, i: nat, x: seq<u8>)
    requires i < |parts| && parts[i].None?
    ensures Filled(parts[i := Some(x)]) == Filled(parts) + 1
  {
    var q := parts[i := Some(x)];
    if i == 0 {
      assert q[1..] == parts[1..];
    } else {
      FilledSet(parts[1..], i - 1, x);
      assert q[1..] == parts[1..][i - 1 := Some(x)];
    }
  }

  lemma {:induction false} FilledAll(parts: seq<Option<seq<u8>>>)
    ensures Filled(parts) == |parts| <==> forall i :: 0 <= i < |parts| ==> parts[i].Some?
  {
    if parts != [] {
      FilledAll(parts[1..]);
      if forall i :: 0 <= i < |parts[1..]| ==> parts[1..][i].Some? {
        assert forall i :: 1 <= i < |parts| ==> parts[i] == parts[1..][i - 1];
      } else {
        var i :| 0 <= i < |parts[1..]| && !parts[1..][i].Some?;
        assert !parts[i + 1].Some?;
      }
    }
  }

  lemma {:induction false} FilledNone(k: nat)
    ensures Filled(EmptySlots(k)) == 0
  {
    if k > 0 {
      FilledNone(k - 1);
      assert EmptySlots(k)[1..] == EmptySlots(k - 1);
    }
  }

  predicate Increasing(s: seq<int>) { forall i, j :: 0 <= i < j < |s| ==> s[i] < s[j] }

  lemma EmptyFirst(parts: seq<Option<seq<u8>>>, from: nat)
    requires from < |parts| <= MAX_FRAGMENTS
    ensures EmptyFrom(parts, from) == (if parts[from].None? then [from] else []) + EmptyFrom(parts, from + 1)
  {
  }

  lemma EmptyEnds(parts: seq<Option<seq<u8>>>)
    requires |parts| <= MAX_FRAGMENTS
    ensures EmptyFrom(parts, |parts|) == []
  {
  }

  lemma {:induction false} EmptyMembers(parts: seq<Option<seq<u8>>>, from: nat, i: int)
    requires from <= |parts| <= MAX_FRAGMENTS
    ensures i in EmptyFrom(parts, from) <==> from <= i < |parts| && parts[i].None?
    decreases |parts| - from
  {
    hide EmptyFrom;
    if from < |parts| {
      EmptyMembers(parts, from + 1, i);
      EmptyFirst(parts, from);
    } else {
      EmptyEnds(parts);
    }
  }

  lemma {:induction false} EmptyIncreasing(parts: seq<Option<seq<u8>>>, from: nat)
    requires from <= |parts| <= MAX_FRAGMENTS
    ensures Increasing(EmptyFrom(parts, from))
    decreases |parts| - from
  {
    if from < |parts| {
      EmptyIncreasing(parts, from + 1);
      var rest := EmptyFrom(parts, from + 1);
      forall i | 0 <= i < |rest| ensures from < rest[i] { EmptyMembers(parts, from + 1, rest[i]); }
    }
  }

  lemma {:induction false} EmptyCount(parts: seq<Option<seq<u8>>>, from: nat)
    requires from <= |parts| <= MAX_FRAGMENTS
    ensures |EmptyFrom(parts, from)| == |parts| - from - Filled(parts[from..])
    decreases |parts| - from
  {
    if from < |parts| {
      EmptyCount(parts, from + 1);
      assert parts[from..][1..] == parts[from + 1..];
    }
  }

  // ---- push -------------------------------------------------------------

  /** A frame this reassembler has completed or given up on. */
  predicate Stale(s: State, n: u32) {
    && s.newestCompleted.Some?
    && (!FrameNewerOrEq(n, s.newestCompleted.value) || n == s.newestCompleted.value)
    && n !in s.partials
  }

  function Entry(s: State, h: Header, nowUs: nat): Partial {
    if h.frameNumber in s.partials then s.partials[h.frameNumber]
    else Partial(h.stream, h.timestampUs, h.IsKeyframe(), nowUs, EmptySlots(Max(h.fragmentCount, 1)), 0)
  }

  function Watermark(before: Option<u32>, n: u32): Option<u32> {
    if before.Some? && !FrameNewerOrEq(n, before.value) then before else Some(n)
  }

  function Emit(n: u32, p: Partial): CompleteFrame {
    CompleteFrame(p.stream, n, p.timestampUs, p.keyframe, Join(p.parts))
  }

  /** One accepted header and payload. */
  function Accept(s: State, h: Header, payload: seq<u8>, nowUs: nat): (State, Option<CompleteFrame>) {
    var n := h.frameNumber;
    var e := Entry(s, h, nowUs);
    var i := h.fragmentIndex;
    if Stale(s, n) then (s, None)
    else if i >= |e.parts| || e.parts[i].Some? then (s.(partials := s.partials[n := e]), None)
    else
      var e' := e.(parts := e.parts[i := Some(payload)], received := e.received + 1);
      if e'.received < |e'.parts| then (s.(partials := s.partials[n := e']), None)
      else (s.(partials := s.partials - {n}, newestCompleted := Watermark(s.newestCompleted, n)), Some(Emit(n, e')))
  }

  function AfterPush(s: State, datagram: seq<u8>, nowUs: nat): (State, Result<Option<CompleteFrame>, HeaderError>) {
    match Decode(datagram)
    case Err(e) => (s, Err(e))
    case Ok((h, payload)) => var (s', out) := Accept(s, h, payload, nowUs); (s', Ok(out))
  }

  // ---- tick -------------------------------------------------------------

  predicate IsLeast(m: u32, s: set<u32>) { m in s && forall x :: x in s ==> m <= x }

  lemma {:induction false} LeastExists(s: set<u32>, y: u32)
    requires y in s
    ensures exists m :: IsLeast(m, s)
    decreases y
  {
    if !IsLeast(y, s) {
      var z: u32 :| z in s && z < y;
      LeastExists(s, z);
    }
  }

  lemma LeastOf(s: set<u32>)
    ensures (exists y :: y in s) ==> exists m :: IsLeast(m, s)
  {
    forall y | y in s ensures exists m :: IsLeast(m, s) { LeastExists(s, y); }
  }

  /** The keys in ascending order, as a `BTreeMap` iterates them. */
  function Ascending(s: set<u32>): (r: seq<u32>)
    ensures forall x :: x in r <==> x in s
    ensures Increasing(r)
  {
    LeastOf(s);
    if exists m :: IsLeast(m, s) then
      var m :| IsLeast(m, s);
      [m] + Ascending(s - {m})
    else []
  }

  predicate Expired(p: Partial, nowUs: nat, maxAgeUs: nat) { SatSub(nowUs, p.firstSeenUs) > maxAgeUs }

  /** Asking is still worth it: a keyframe always, a delta only while a repair
      could land inside the receiver's window. */
  predicate Worth(p: Partial, nowUs: nat, rttUs: nat, windowUs: nat) {
    p.keyframe || nowUs + rttUs + DECODE_MARGIN_US < p.firstSeenUs + windowUs
  }

  /** Every frame under assembly is incomplete and counts its own fragments. */
  predicate PartialOk(p: Partial) {
    && 0 < |p.parts| <= MAX_FRAGMENTS
    && p.received == Filled(p.parts) < |p.parts|
  }

  predicate Honest(s: State) { forall n :: n in s.partials ==> PartialOk(s.partials[n]) }

  predicate KeysOf(s: State, keys: seq<u32>) { forall i :: 0 <= i < |keys| ==> keys[i] in s.partials }

  function Missing(p: Partial): seq<u16>
    requires PartialOk(p)
  {
    EmptyFrom(p.parts, 0)
  }

  /** Requests for the first `i` of `keys`. */
  function NacksFor(s: State, keys: seq<u32>, i: nat, nowUs: nat, rttUs: nat, windowUs: nat): seq<Nack>
    requires Honest(s) && KeysOf(s, keys) && i <= |keys|
  {
    if i == 0 then []
    else
      var p := s.partials[keys[i - 1]];
      NacksFor(s, keys, i - 1, nowUs, rttUs, windowUs)
      + if !Expired(p, nowUs, s.maxAgeUs) && Worth(p, nowUs, rttUs, windowUs)
        then [Nack(keys[i - 1], Missing(p))] else []
  }

  /** Fragments that never came, over the expired frames among the first `i` of `keys`. */
  function LossOver(s: State, keys: seq<u32>, i: nat, nowUs: nat): nat
    requires Honest(s) && KeysOf(s, keys) && i <= |keys|
  {
    if i == 0 then 0
    else
      var p := s.partials[keys[i - 1]];
      LossOver(s, keys, i - 1, nowUs)
      + if Expired(p, nowUs, s.maxAgeUs) then |p.parts| - p.received else 0
  }

  function Survivors(s: State, nowUs: nat): map<u32, Partial> {
    map n | n in s.partials && !Expired(s.partials[n], nowUs, s.maxAgeUs) :: s.partials[n]
  }

  function AfterTick(s: State, nowUs: nat, rttUs: nat, windowUs: nat): (State, seq<Nack>)
    requires Honest(s)
  {
    var keys := Ascending(s.partials.Keys);
    (s.(partials := Survivors(s, nowUs), lost := s.lost + LossOver(s, keys, |keys|, nowUs)),
     NacksFor(s, keys, |keys|, nowUs, rttUs, windowUs))
  }

  // ---- loops ------------------------------------------------------------

  lemma JoinFrom(parts: seq<Option<seq<u8>>>, k: nat)
    requires k < |parts| && parts[k].Some?
    ensures Join(parts[k..]) == parts[k].value + Join(parts[k + 1..])
  {
    assert parts[k..][1..] == parts[k + 1..];
  }

  lemma JoinNothing(parts: seq<Option<seq<u8>>>)
    requires parts == []
    ensures Join(parts) == []
  {
  }

  /** Runs the parts together; every slot must be filled. */
  method JoinAll(parts: seq<Option<seq<u8>>>) returns (data: seq<u8>)
    requires forall i :: 0 <= i < |parts| ==> parts[i].Some?
    ensures data == Join(parts)
  {
    hide Join;
    data := [];
    assert parts[0..] == parts && data + Join(parts) == Join(parts);
    for k := 0 to |parts|
      invariant data + Join(parts[k..]) == Join(parts)
    {
      JoinFrom(parts, k);
      Reassociate(data, parts[k].value, Join(parts[k + 1..]));
      data := data + parts[k].value;
    }
    JoinNothing(parts[|parts|..]);
    assert data + [] == data;
  }

  /** The walk over the pending frames inside `tick`: what to ask for, what to
      forget, and how many fragments that loses. */
  method Sweep(s: State, keys: seq<u32>, nowUs: nat, rttUs: nat, windowUs: nat)
    returns (nacks: seq<Nack>, expired: set<u32>, gone: nat)
    requires Honest(s) && KeysOf(s, keys)
    ensures nacks == NacksFor(s, keys, |keys|, nowUs, rttUs, windowUs)
    ensures gone == LossOver(s, keys, |keys|, nowUs)
    ensures forall k :: k in expired <==> k in keys && Expired(s.partials[k], nowUs, s.maxAgeUs)
  {
    nacks, expired, gone := [], {}, 0;
    for i := 0 to |keys|
      invariant nacks == NacksFor(s, keys, i, nowUs, rttUs, windowUs)
      invariant gone == LossOver(s, keys, i, nowUs)
      invariant forall k :: k in expired ==> k in keys && Expired(s.partials[k], nowUs, s.maxAgeUs)
      invariant forall j :: 0 <= j < i && Expired(s.partials[keys[j]], nowUs, s.maxAgeUs) ==> keys[j] in expired
    {
      var fnum := keys[i];
      var p := s.partials[fnum];
      var age := SatSub(nowUs, p.firstSeenUs);
      if age > s.maxAgeUs {
        expired := expired + {fnum};
        gone := gone + (|p.parts| - p.received);
        continue;
      }
      var inTime := nowUs + rttUs + DECODE_MARGIN_US < p.firstSeenUs + windowUs;
      if !p.keyframe && !inTime { continue; }
      nacks := nacks + [Nack(fnum, Missing(p))];
    }
  }

  // ---- the object -------------------------------------------------------

  class Reassembler {
    const maxAgeUs: nat
    var partials: map<u32, Partial>
    var newestCompleted: Option<u32>
    var lost: nat

    function Value(): State
      reads this
    {
      State(maxAgeUs, partials, newestCompleted, lost)
    }

    ghost predicate Valid()
      reads this
    {
      Honest(Value())
    }

    constructor (maxAgeUs: nat)
      ensures Valid() && Value() == Fresh(maxAgeUs)
    {
      this.maxAgeUs := maxAgeUs;
      partials, newestCompleted, lost := map[], None, 0;
    }

    method FragmentsLost() returns (n: nat)
      requires Valid()
      modifies this
      ensures Valid() && n == old(lost) && Value() == old(Value()).(lost := 0)
    {
      n := lost;
      lost := 0;
    }

    method Push(datagram: seq<u8>, nowUs: nat) returns (r: Result<Option<CompleteFrame>, HeaderError>)
      requires Valid()
      modifies this
      ensures Valid()
      ensures Value() == AfterPush(old(Value()), datagram, nowUs).0
      ensures r == AfterPush(old(Value()), datagram, nowUs).1
    {
      var d := Decode(datagram);
      if d.Err? { return Err(d.error); }
      var (h, payload) := d.value;
      var out := Place(h, payload, nowUs);
      r := Result.Ok(out);
    }

    /** The rest of `Push`, once the header is known. */
    method Place(h: Header, payload: seq<u8>, nowUs: nat) returns (r: Option<CompleteFrame>)
      requires Valid()
      modifies this
      ensures Valid()
      ensures Value() == Accept(old(Value()), h, payload, nowUs).0
      ensures r == Accept(old(Value()), h, payload, nowUs).1
    {
      AcceptKeepsHonest(Value(), h, payload, nowUs);
      if newestCompleted.Some? {
        var n := newestCompleted.value;
        if (!FrameNewerOrEq(h.frameNumber, n) || h.frameNumber == n) && h.frameNumber !in partials {
          return None;
        }
      }
      EntryOk(Value(), h, nowUs);
      var n, i := h.frameNumber, h.fragmentIndex;
      var e: Partial;
      if n in partials {
        e := partials[n];
      } else {
        e := Partial(h.stream, h.timestampUs, h.IsKeyframe(), nowUs, EmptySlots(Max(h.fragmentCount, 1)), 0);
      }
      if i >= |e.parts| || e.parts[i].Some? {
        partials := partials[n := e];
        return None;
      }
      FilledSet(e.parts, i, payload);
      e := e.(parts := e.parts[i := Some(payload)], received := e.received + 1);
      if e.received < |e.parts| {
        partials := partials[n := e];
        return None;
      }
      r := Finish(n, e);
    }

    /** Hands a full frame out and moves the watermark. */
    method Finish(n: u32, e: Partial) returns (r: Option<CompleteFrame>)
      requires Filled(e.parts) == |e.parts|
      modifies this
      ensures partials == old(partials) - {n} && lost == old(lost)
      ensures newestCompleted == Watermark(old(newestCompleted), n)
      ensures r == Some(Emit(n, e))
    {
      partials := partials - {n};
      if newestCompleted.Some? {
        if FrameNewerOrEq(n, newestCompleted.value) {
          newestCompleted := Some(n);
        }
      } else {
        newestCompleted := Some(n);
      }
      FilledAll(e.parts);
      var data := JoinAll(e.parts);
      r := Some(CompleteFrame(e.stream, n, e.timestampUs, e.keyframe, data));
    }

    method Tick(nowUs: nat, rttUs: nat, windowUs: nat) returns (nacks: seq<Nack>)
      requires Valid()
      modifies this
      ensures Valid()
      ensures Value() == AfterTick(old(Value()), nowUs, rttUs, windowUs).0
      ensures nacks == AfterTick(old(Value()), nowUs, rttUs, windowUs).1
    {
      hide PartialOk, NacksFor, LossOver, Expired;
      var expired, gone;
      var keys := Ascending(partials.Keys);
      assert KeysOf(Value(), keys);
      nacks, expired, gone := Sweep(Value(), keys, nowUs, rttUs, windowUs);
      lost := lost + gone;
      partials := partials - expired;
      assert partials == Survivors(old(Value()), nowUs);
    }
  }

  // ---- what the steps keep ----------------------------------------------

  lemma EntryOk(s: State, h: Header, nowUs: nat)
    requires Honest(s)
    ensures PartialOk(Entry(s, h, nowUs))
  {
    FilledNone(Max(h.fragmentCount, 1));
  }

  lemma AcceptKeepsHonest(s: State, h: Header, payload: seq<u8>, nowUs: nat)
    requires Honest(s)
    ensures Honest(Accept(s, h, payload, nowUs).0)
  {
    EntryOk(s, h, nowUs);
    var e := Entry(s, h, nowUs);
    if h.fragmentIndex < |e.parts| && e.parts[h.fragmentIndex].None? {
      FilledSet(e.parts, h.fragmentIndex, payload);
    }
  }

  /** For any bytes at all: what is under assembly stays incomplete and honestly
      counted, so a NACK is never empty and an emitted frame has every part. */
  lemma PushKeepsHonest(s: State, datagram: seq<u8>, nowUs: nat)
    requires Honest(s)
    ensures Honest(AfterPush(s, datagram, nowUs).0)
  {
    var d := Decode(datagram);
    if d.Ok? { AcceptKeepsHonest(s, d.value.0, d.value.1, nowUs); }
  }

  predicate InFrameOrder(ns: seq<Nack>) {
    forall i, j :: 0 <= i < j < |ns| ==> ns[i].frameNumber < ns[j].frameNumber
  }

  /** Membership and order of a NACK list built over ascending keys. */
  lemma {:induction false} NacksExact(s: State, keys: seq<u32>, i: nat, nowUs: nat, rttUs: nat, windowUs: nat)
    requires Honest(s) && KeysOf(s, keys) && i <= |keys| && Increasing(keys)
    ensures forall x :: x in NacksFor(s, keys, i, nowUs, rttUs, windowUs) <==>
              x.frameNumber in keys[..i] && !Expired(s.partials[x.frameNumber], nowUs, s.maxAgeUs)
              && Worth(s.partials[x.frameNumber], nowUs, rttUs, windowUs)
              && x.missing == Missing(s.partials[x.frameNumber])
    ensures InFrameOrder(NacksFor(s, keys, i, nowUs, rttUs, windowUs))
  {
    hide Expired, Worth, Missing, PartialOk;
    if i > 0 {
      NacksExact(s, keys, i - 1, nowUs, rttUs, windowUs);
      assert keys[..i] == keys[..i - 1] + [keys[i - 1]];
      var ns := NacksFor(s, keys, i - 1, nowUs, rttUs, windowUs);
      forall j | 0 <= j < |ns| ensures ns[j].frameNumber < keys[i - 1] {
        assert ns[j] in ns;
      }
    }
  }

  /** The missing slots of a frame are named once each, in ascending order. */
  lemma MissingIs(p: Partial)
    requires PartialOk(p)
    ensures Missing(p) != [] && Increasing(Missing(p))
    ensures forall k: u16 :: k in Missing(p) <==> k < |p.parts| && p.parts[k].None?
  {
    forall k: u16 ensures k in Missing(p) <==> k < |p.parts| && p.parts[k].None? { EmptyMembers(p.parts, 0, k); }
    EmptyCount(p.parts, 0);
    EmptyIncreasing(p.parts, 0);
    assert p.parts[0..] == p.parts;
  }

  /** A tick asks exactly for the frames that are pending, unexpired and worth
      repairing, in the order of their numbers; each request names exactly the empty
      slots, at least one, each once and in ascending order. */
  lemma TickNacksExactly(s: State, nowUs: nat, rttUs: nat, windowUs: nat)
    requires Honest(s)
    ensures forall x :: x in AfterTick(s, nowUs, rttUs, windowUs).1 <==>
              x.frameNumber in s.partials && !Expired(s.partials[x.frameNumber], nowUs, s.maxAgeUs)
              && Worth(s.partials[x.frameNumber], nowUs, rttUs, windowUs)
              && x.missing == Missing(s.partials[x.frameNumber])
    ensures InFrameOrder(AfterTick(s, nowUs, rttUs, windowUs).1)
    ensures forall x :: x in AfterTick(s, nowUs, rttUs, windowUs).1 ==> x.missing != [] && Increasing(x.missing)
    ensures forall x, k: u16 :: x in AfterTick(s, nowUs, rttUs, windowUs).1 ==>
              (k in x.missing <==> k < |s.partials[x.frameNumber].parts| && s.partials[x.frameNumber].parts[k].None?)
  {
    hide Expired, Worth, Missing, PartialOk, NacksFor;
    var ns := AfterTick(s, nowUs, rttUs, windowUs).1;
    var keys := Ascending(s.partials.Keys);
    NacksExact(s, keys, |keys|, nowUs, rttUs, windowUs);
    assert keys[..|keys|] == keys;
    forall x | x in ns
      ensures x.missing != [] && Increasing(x.missing)
      ensures forall k: u16 ::
        k in x.missing <==> k < |s.partials[x.frameNumber].parts| && s.partials[x.frameNumber].parts[k].None?
    {
      MissingIs(s.partials[x.frameNumber]);
    }
  }

  /** The deadlines, in numbers: a frame is kept as long as its first fragment is no older
      than the maximum age, and asked for while it is kept and either is a keyframe or a
      repair, a round trip and 10 ms away, lands inside the window counted from there. */
  lemma DeadlinesExactly(s: State, nowUs: nat, rttUs: nat, windowUs: nat, n: u32)
    requires Honest(s) && n in s.partials
    ensures var (s1, nacks) := AfterTick(s, nowUs, rttUs, windowUs);
      var p := s.partials[n];
      var kept := nowUs <= p.firstSeenUs + s.maxAgeUs;
      && (n in s1.partials <==> kept) && (kept ==> s1.partials[n] == p)
      && ((exists x :: x in nacks && x.frameNumber == n) <==>
            kept && (p.keyframe || nowUs + rttUs + 10_000 < p.firstSeenUs + windowUs))
  {
    hide Missing, PartialOk, NacksFor;
    TickNacksExactly(s, nowUs, rttUs, windowUs);
    var p := s.partials[n];
    if !Expired(p, nowUs, s.maxAgeUs) && Worth(p, nowUs, rttUs, windowUs) {
      assert Nack(n, Missing(p)) in AfterTick(s, nowUs, rttUs, windowUs).1;
    }
  }
}
