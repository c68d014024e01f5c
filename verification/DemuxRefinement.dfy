/** What the demultiplexer emits for an elementary stream, against a reference
    that looks at whole PES packets instead of keeping state. */
module DemuxRefinement {
  import opened Common
  import opened Rtp
  import opened Demux

  // ---- the reference ----------------------------------------------------

  /** One payload packet of a PID: `broken` when its counter does not follow, and
      `pes` the PES header and body it holds if it starts one. */
  datatype Piece = Piece(start: bool, broken: bool, pes: Option<Pes>, payload: seq<u8>)

  function PieceOf(t: TsPacket, cc: Option<nat>): Piece {
    Piece(t.start, cc.Some? && t.cc != (cc.value + 1) % 16, ParsePes(t.payload), t.payload)
  }

  /** The payload packets of `pid`, given the counter last seen on it. */
  function Pieces(ts: seq<TsPacket>, pid: u16, cc: Option<nat>): seq<Piece>
    decreases |ts|
  {
    if ts == [] then []
    else if ts[0].pid == pid then [PieceOf(ts[0], cc)] + Pieces(ts[1..], pid, Some(ts[0].cc))
    else Pieces(ts[1..], pid, cc)
  }

  function Payloads(g: seq<Piece>): seq<seq<u8>> {
    seq(|g|, i requires 0 <= i < |g| => g[i].payload)
  }

  /** The PES bytes carried by the packets of `g`, whose first one starts it. */
  function Gathered(g: seq<Piece>): seq<u8>
    requires g != [] && g[0].pes.Some?
  {
    g[0].pes.value.body + Concat(Payloads(g[1..]))
  }

  /** The packet that brings the gathered bytes to `n`. */
  function FullAt(g: seq<Piece>, n: nat): (k: Option<nat>)
    requires g != [] ==> g[0].pes.Some?
    ensures k.Some? ==> k.value < |g|
  {
    if g == [] then None
    else
      var earlier := FullAt(g[..|g| - 1], n);
      if earlier.Some? then earlier else if |Gathered(g)| >= n then Some(|g| - 1) else None
  }

  /** No continuity break after the first packet, up to packet `k`. */
  predicate Intact(g: seq<Piece>, k: nat) { forall i :: 1 <= i <= k && i < |g| ==> !g[i].broken }

  /** The unit of one PES packet, if any. With a declared length, it is the first
      that many bytes, provided nothing broke before they were all there.
      Otherwise, or when too little came, it is everything up to the next start,
      provided nothing broke up to and including that start. */
  function GroupUnit(g: seq<Piece>, next: Option<Piece>): (r: seq<AccessUnit>)
    requires g != []
    ensures |r| <= 1
  {
    match g[0].pes
    case None => []
    case Some(pes) =>
      var full := if pes.payloadLen.Some? then FullAt(g, pes.payloadLen.value) else None;
      match full
      case Some(k) =>
        if Intact(g, k) then [AccessUnit(Cut(Gathered(g[..k + 1]), pes.payloadLen), pes.ptsUs)] else []
      case None =>
        if next.Some? && !next.value.broken && Intact(g, |g| - 1) && Gathered(g) != []
        then [AccessUnit(Gathered(g), pes.ptsUs)] else []
  }

  /** The next start at or after `i`, or the end. */
  function NextStart(ps: seq<Piece>, i: nat): (j: nat)
    requires i <= |ps|
    ensures i <= j <= |ps| && (j < |ps| ==> ps[j].start) && forall k :: i <= k < j ==> !ps[k].start
    decreases |ps| - i
  {
    if i == |ps| || ps[i].start then i else NextStart(ps, i + 1)
  }

  function At(ps: seq<Piece>, j: nat): Option<Piece> { if j < |ps| then Some(ps[j]) else None }

  /** The units of the PES packets that start at or after `i`. */
  function Reference(ps: seq<Piece>, i: nat): seq<AccessUnit>
    requires i <= |ps|
    decreases |ps| - i
  {
    var s := NextStart(ps, i);
    if s == |ps| then []
    else
      var e := NextStart(ps, s + 1);
      GroupUnit(ps[s..e], At(ps, e)) + Reference(ps, e)
  }

  // ---- the assembly over pieces -----------------------------------------

  function Take(a: Assembly, p: Piece): (Assembly, seq<AccessUnit>) {
    Feed(if p.broken then a.(damaged := true) else a, p.start, p.pes, p.payload)
  }

  function TakeAll(a: Assembly, ps: seq<Piece>, i: nat): (Assembly, seq<AccessUnit>)
    requires i <= |ps|
    decreases |ps| - i
  {
    if i == |ps| then (a, [])
    else
      var (a1, u1) := Take(a, ps[i]);
      var (a2, u2) := TakeAll(a1, ps, i + 1);
      (a2, u1 + u2)
  }

  /** The assembly part way through a PES whose packets so far are `g`. */
  predicate Midway(a: Assembly, g: seq<Piece>) {
    && g != [] && g[0].pes.Some?
    && var pes := g[0].pes.value;
    && a.open && a.ptsUs == pes.ptsUs && a.expected == pes.payloadLen
    && a.data == Cut(Gathered(g), pes.payloadLen)
    && (a.damaged <==> !Intact(g, |g| - 1))
    && (pes.payloadLen.Some? ==>
          var full := FullAt(g, pes.payloadLen.value); full.Some? ==> !Intact(g, full.value))
  }

  lemma GatheredSnoc(g: seq<Piece>, p: Piece)
    requires g != [] && g[0].pes.Some?
    ensures Gathered(g + [p]) == Gathered(g) + p.payload
  {
    assert (g + [p])[1..] == g[1..] + [p];
    assert Payloads(g[1..] + [p]) == Payloads(g[1..]) + [p.payload];
    ConcatSnoc(Payloads(g[1..]), p.payload);
  }

  lemma FullSnoc(g: seq<Piece>, p: Piece, n: nat)
    requires g != [] && g[0].pes.Some?
    ensures FullAt(g + [p], n) == if FullAt(g, n).Some? then FullAt(g, n)
                                  else if |Gathered(g + [p])| >= n then Some(|g|) else None
  {
    assert (g + [p])[..|g + [p]| - 1] == g;
  }

  /** Once full, later packets of the group change nothing. */
  lemma {:induction false} FullStable(g: seq<Piece>, k: nat, n: nat)
    requires 0 < k <= |g| && g[0].pes.Some? && FullAt(g[..k], n).Some?
    ensures FullAt(g, n) == FullAt(g[..k], n)
  {
    if k < |g| {
      assert g[..|g| - 1][..k] == g[..k];
      FullStable(g[..|g| - 1], k, n);
    } else {
      assert g[..k] == g;
    }
  }

  lemma IntactSnoc(g: seq<Piece>, p: Piece)
    requires g != []
    ensures Intact(g + [p], |g|) <==> Intact(g, |g| - 1) && !p.broken
    ensures forall k: nat :: k < |g| ==> (Intact(g + [p], k) <==> Intact(g, k))
  {
    assert (g + [p])[|g|] == p;
    assert forall i :: 0 <= i < |g| ==> (g + [p])[i] == g[i];
  }

  function UnitOf(g: seq<Piece>): AccessUnit
    requires g != [] && g[0].pes.Some?
  {
    var pes := g[0].pes.value;
    AccessUnit(Cut(Gathered(g), pes.payloadLen), pes.ptsUs)
  }

  /** The group is full with its last packet, and nothing broke on the way. */
  predicate FullNow(g: seq<Piece>) {
    && g != [] && g[0].pes.Some? && g[0].pes.value.payloadLen.Some?
    && FullAt(g, g[0].pes.value.payloadLen.value) == Some(|g| - 1) && Intact(g, |g| - 1)
  }

  /** A further packet either completes the PES or leaves it under way. */
  lemma TakeMore(a: Assembly, g: seq<Piece>, p: Piece)
    requires Midway(a, g) && !p.start
    ensures var (a', us) := Take(a, p);
      if FullNow(g + [p]) then us == [UnitOf(g + [p])] && !a'.open else us == [] && Midway(a', g + [p])
  {
    var pes := g[0].pes.value;
    var g' := g + [p];
    GatheredSnoc(g, p);
    IntactSnoc(g, p);
    if pes.payloadLen.Some? { FullSnoc(g, p, pes.payloadLen.value); }
    var d := if p.broken then a.(damaged := true) else a;
    var b := Append(d, p.payload);
    assert b.data == Cut(Gathered(g'), pes.payloadLen);
    assert [] + Close(b).1 == Close(b).1;
  }

  /** What a start lets out of the PES before it. */
  function Before(a: Assembly, p: Piece): seq<AccessUnit> {
    if a.open && !a.damaged && !p.broken && a.data != [] then [AccessUnit(a.data, a.ptsUs)] else []
  }

  /** What a start packet begins, before asking whether it is already complete. */
  lemma OpenCuts(pes: Pes, p: Piece)
    requires p.pes == Some(pes)
    ensures Gathered([p]) == pes.body
    ensures var b := Append(Assembly([], pes.ptsUs, false, true, pes.payloadLen), pes.body);
      b == Assembly(Cut(pes.body, pes.payloadLen), pes.ptsUs, false, true, pes.payloadLen)
    ensures forall n :: FullAt([p], n) == if |pes.body| >= n then Some(0) else None
  {
    assert Payloads([p][1..]) == [];
    assert pes.body + [] == pes.body;
    assert [p][..0] == [];
  }

  /** A start packet ends one PES and begins, and possibly completes, the next. */
  lemma TakeStart(a: Assembly, p: Piece)
    requires p.start
    ensures var (a', us) := Take(a, p);
      if p.pes.None? then us == Before(a, p) && !a'.open
      else if FullNow([p]) then us == Before(a, p) + [UnitOf([p])] && !a'.open
      else us == Before(a, p) && Midway(a', [p])
  {
    assert Before(a, p) + [] == Before(a, p);
    if p.pes.Some? { OpenCuts(p.pes.value, p); }
  }

  /** A PES under way at the next start, or at the end, lets out what the
      reference gives its group. */
  lemma MidwayEnds(a: Assembly, g: seq<Piece>, next: Option<Piece>)
    requires Midway(a, g)
    ensures GroupUnit(g, next) == if next.Some? then Before(a, next.value) else []
  {
    var pes := g[0].pes.value;
    if pes.payloadLen.Some? && FullAt(g, pes.payloadLen.value).Some? {
      var k := FullAt(g, pes.payloadLen.value).value;
      assert !Intact(g, k) && !Intact(g, |g| - 1);
    }
  }

  /** A group that was full with packet `k` lets out exactly that unit. */
  lemma FullGroup(g: seq<Piece>, k: nat, next: Option<Piece>)
    requires k < |g| && FullNow(g[..k + 1])
    ensures GroupUnit(g, next) == [UnitOf(g[..k + 1])]
  {
    var n := g[0].pes.value.payloadLen.value;
    FullStable(g, k + 1, n);
    assert forall i :: 0 <= i <= k ==> g[..k + 1][i] == g[i];
  }

  // ---- the assembly is the reference ------------------------------------

  lemma {:induction false} ReferenceSkips(ps: seq<Piece>, i: nat)
    requires i < |ps| && !ps[i].start
    ensures Reference(ps, i) == Reference(ps, i + 1)
  {
  }

  lemma {:induction false} ReferenceFrom(ps: seq<Piece>, i: nat)
    requires i <= |ps|
    ensures Reference(ps, i) == Reference(ps, NextStart(ps, i))
    decreases |ps| - i
  {
    if i < |ps| && !ps[i].start {
      ReferenceSkips(ps, i);
      ReferenceFrom(ps, i + 1);
    }
  }

  lemma {:induction false} ClosedRest(a: Assembly, ps: seq<Piece>, i: nat)
    requires i <= |ps| && !a.open
    ensures TakeAll(a, ps, i).1 == Reference(ps, i)
    decreases |ps| - i, 1
  {
    if i < |ps| {
      if ps[i].start {
        StartRest(a, ps, i);
        assert Before(a, ps[i]) + Reference(ps, i) == Reference(ps, i);
      } else {
        ReferenceSkips(ps, i);
        ClosedRest(Take(a, ps[i]).0, ps, i + 1);
        assert [] + Reference(ps, i + 1) == Reference(ps, i + 1);
      }
    }
  }

  lemma TakeAllUnfolds(a: Assembly, ps: seq<Piece>, i: nat)
    requires i < |ps|
    ensures TakeAll(a, ps, i).1 == Take(a, ps[i]).1 + TakeAll(Take(a, ps[i]).0, ps, i + 1).1
  {
  }

  lemma ReferenceAtStart(ps: seq<Piece>, i: nat)
    requires i < |ps| && ps[i].start
    ensures var e := NextStart(ps, i + 1); Reference(ps, i) == GroupUnit(ps[i..e], At(ps, e)) + Reference(ps, e)
  {
  }

  lemma Regroup<T>(before: seq<T>, group: seq<T>, rest: seq<T>)
    ensures (before + group) + rest == before + (group + rest)
    ensures before + [] == before && [] + before == before
  {
  }

  /** A start whose PES is unreadable, or complete at once. */
  lemma StartOver(a: Assembly, ps: seq<Piece>, i: nat, a1: Assembly, u1: seq<AccessUnit>)
    requires i < |ps| && ps[i].start && (ps[i].pes.None? || FullNow([ps[i]]))
    requires u1 == Before(a, ps[i]) + if ps[i].pes.None? then [] else [UnitOf([ps[i]])]
    requires TakeAll(a1, ps, i + 1).1 == Reference(ps, i + 1)
    ensures u1 + TakeAll(a1, ps, i + 1).1 == Before(a, ps[i]) + Reference(ps, i)
  {
    hide TakeAll, Reference, GroupUnit, NextStart, FullNow, UnitOf, Before;
    var e := NextStart(ps, i + 1);
    ReferenceFrom(ps, i + 1);
    ReferenceAtStart(ps, i);
    GroupOver(ps, i);
    Regroup(Before(a, ps[i]), GroupUnit(ps[i..e], At(ps, e)), Reference(ps, e));
  }

  lemma GroupOver(ps: seq<Piece>, i: nat)
    requires i < |ps| && (ps[i].pes.None? || FullNow([ps[i]]))
    ensures var e := NextStart(ps, i + 1);
      GroupUnit(ps[i..e], At(ps, e)) == if ps[i].pes.None? then [] else [UnitOf([ps[i]])]
  {
    hide NextStart;
    var e := NextStart(ps, i + 1);
    assert ps[i..e][..1] == [ps[i]];
    if ps[i].pes.Some? { FullGroup(ps[i..e], 0, At(ps, e)); }
  }

  lemma {:induction false} StartRest(a: Assembly, ps: seq<Piece>, i: nat)
    requires i < |ps| && ps[i].start
    ensures TakeAll(a, ps, i).1 == Before(a, ps[i]) + Reference(ps, i)
    decreases |ps| - i, 0
  {
    var (a1, u1) := Take(a, ps[i]);
    TakeAllUnfolds(a, ps, i);
    TakeStart(a, ps[i]);
    Regroup(Before(a, ps[i]), [], []);
    if ps[i].pes.None? || FullNow([ps[i]]) {
      ClosedRest(a1, ps, i + 1);
      StartOver(a, ps, i, a1, u1);
    } else {
      assert ps[i..i + 1] == [ps[i]];
      MidwayRest(a1, ps, i, i + 1, [ps[i]]);
      ReferenceAtStart(ps, i);
    }
  }

  /** What is still to come from the PES that started at `s`, and after it. */
  function Coming(ps: seq<Piece>, s: nat, i: nat): seq<AccessUnit>
    requires s < i <= |ps|
  {
    var e := NextStart(ps, i);
    GroupUnit(ps[s..e], At(ps, e)) + Reference(ps, e)
  }

  /** The group is complete with the packet at `i`. */
  lemma MidwayDone(ps: seq<Piece>, s: nat, i: nat, g: seq<Piece>)
    requires s < i < |ps| && !ps[i].start && g == ps[s..i + 1] && FullNow(g)
    ensures Coming(ps, s, i) == [UnitOf(g)] + Reference(ps, i + 1)
  {
    var e := NextStart(ps, i);
    ReferenceSkips(ps, i);
    ReferenceFrom(ps, i);
    var whole := ps[s..e];
    assert whole[..|g|] == g;
    FullGroup(whole, |g| - 1, At(ps, e));
  }

  /** One more packet of a PES under way. */
  lemma MidwayMore(a: Assembly, ps: seq<Piece>, s: nat, i: nat, g: seq<Piece>) returns (a1: Assembly)
    requires s < i < |ps| && !ps[i].start && Midway(a, ps[s..i]) && g == ps[s..i + 1]
    ensures FullNow(g) ==> !a1.open && TakeAll(a, ps, i).1 == [UnitOf(g)] + TakeAll(a1, ps, i + 1).1
    ensures !FullNow(g) ==> Midway(a1, g) && TakeAll(a, ps, i).1 == TakeAll(a1, ps, i + 1).1
  {
    a1 := Take(a, ps[i]).0;
    assert g == ps[s..i] + [ps[i]];
    TakeMore(a, ps[s..i], ps[i]);
    TakeAllUnfolds(a, ps, i);
    Regroup(TakeAll(a1, ps, i + 1).1, [], []);
  }

  lemma MidwayAtStart(a: Assembly, ps: seq<Piece>, s: nat, i: nat)
    requires s < i <= |ps| && Midway(a, ps[s..i]) && (i < |ps| ==> ps[i].start)
    ensures Coming(ps, s, i) == (if i < |ps| then Before(a, ps[i]) else []) + Reference(ps, i)
  {
    MidwayEnds(a, ps[s..i], At(ps, i));
  }

  lemma {:induction false} MidwayRest(a: Assembly, ps: seq<Piece>, s: nat, i: nat, g: seq<Piece>)
    requires s < i <= |ps| && g == ps[s..i] && Midway(a, g)
    ensures TakeAll(a, ps, i).1 == Coming(ps, s, i)
    decreases |ps| - i, 2
  {
    if i < |ps| && !ps[i].start {
      MidwayOn(a, ps, s, i, g);
    } else {
      MidwayAtStart(a, ps, s, i);
      if i < |ps| { StartRest(a, ps, i); }
    }
  }

  /** The same, with what it means for what is still to come. */
  lemma MidwayGoesOn(a: Assembly, ps: seq<Piece>, s: nat, i: nat, g: seq<Piece>)
    returns (a1: Assembly, done: bool, more: seq<Piece>)
    requires s < i < |ps| && g == ps[s..i] && Midway(a, g) && !ps[i].start
    ensures done ==> !a1.open
    ensures done && TakeAll(a1, ps, i + 1).1 == Reference(ps, i + 1) ==> TakeAll(a, ps, i).1 == Coming(ps, s, i)
    ensures !done ==> more == ps[s..i + 1] && Midway(a1, more)
    ensures !done && TakeAll(a1, ps, i + 1).1 == Coming(ps, s, i + 1) ==> TakeAll(a, ps, i).1 == Coming(ps, s, i)
  {
    more := ps[s..i + 1];
    a1 := MidwayMore(a, ps, s, i, more);
    done := FullNow(more);
    if done { MidwayDone(ps, s, i, more); } else { ComingSkips(ps, s, i); }
  }

  lemma {:induction false} MidwayOn(a: Assembly, ps: seq<Piece>, s: nat, i: nat, g: seq<Piece>)
    requires s < i < |ps| && g == ps[s..i] && Midway(a, g) && !ps[i].start
    ensures TakeAll(a, ps, i).1 == Coming(ps, s, i)
    decreases |ps| - i, 1
  {
    hide TakeAll, Coming, Midway, FullNow, Reference;
    var a1, done, more := MidwayGoesOn(a, ps, s, i, g);
    if done { ClosedRest(a1, ps, i + 1); } else { MidwayRest(a1, ps, s, i + 1, more); }
  }

  lemma ComingSkips(ps: seq<Piece>, s: nat, i: nat)
    requires s < i < |ps| && !ps[i].start
    ensures Coming(ps, s, i) == Coming(ps, s, i + 1)
  {
    assert NextStart(ps, i) == NextStart(ps, i + 1);
  }

  // ---- the demultiplexer is the assembly --------------------------------

  function Run(d: State, packets: seq<seq<u8>>): (State, seq<Unit>)
    decreases |packets|
  {
    if packets == [] then (d, [])
    else
      var (d1, u1) := AfterPush(d, packets[0]);
      var (d2, u2) := Run(d1, packets[1..]);
      (d2, u1 + u2)
  }

  /** The packets with a payload, read. */
  function Readable(packets: seq<seq<u8>>): seq<TsPacket> {
    if packets == [] then []
    else if ReadPacket(packets[0]).Some? then [ReadPacket(packets[0]).value] + Readable(packets[1..])
    else Readable(packets[1..])
  }

  function Receive(d: State, t: TsPacket): (State, seq<Unit>) { Dispatch(Noted(d, t), t) }

  function ReceiveAll(d: State, ts: seq<TsPacket>): (State, seq<Unit>)
    decreases |ts|
  {
    if ts == [] then (d, [])
    else
      var (d1, u1) := Receive(d, ts[0]);
      var (d2, u2) := ReceiveAll(d1, ts[1..]);
      (d2, u1 + u2)
  }

  lemma {:induction false} RunReceives(d: State, packets: seq<seq<u8>>)
    ensures Run(d, packets) == ReceiveAll(d, Readable(packets))
    decreases |packets|
  {
    if packets != [] {
      RunReceives(AfterPush(d, packets[0]).0, packets[1..]);
      if ReadPacket(packets[0]).None? {
        assert [] + Run(d, packets[1..]).1 == Run(d, packets[1..]).1;
      }
    }
  }

  /** The stream's tables never move a PID. */
  predicate Steady(d: State, ts: seq<TsPacket>)
    decreases |ts|
  {
    ts == [] ||
    (var d1 := Receive(d, ts[0]).0;
     d1.pmtPid == d.pmtPid && d1.videoPid == d.videoPid && d1.audioPid == d.audioPid && Steady(d1, ts[1..]))
  }

  function VideoOf(us: seq<Unit>): seq<AccessUnit> {
    if us == [] then [] else if us[0].Video? then [us[0].unit] + VideoOf(us[1..]) else VideoOf(us[1..])
  }

  function AudioOf(us: seq<Unit>): seq<AccessUnit> {
    if us == [] then [] else if us[0].Audio? then [us[0].unit] + AudioOf(us[1..]) else AudioOf(us[1..])
  }

  lemma {:induction false} VideoAppend(a: seq<Unit>, b: seq<Unit>)
    ensures VideoOf(a + b) == VideoOf(a) + VideoOf(b)
  {
    if a == [] {
      assert a + b == b;
    } else {
      VideoAppend(a[1..], b);
      assert (a + b)[0] == a[0] && (a + b)[1..] == a[1..] + b;
    }
  }

  lemma {:induction false} AudioAppend(a: seq<Unit>, b: seq<Unit>)
    ensures AudioOf(a + b) == AudioOf(a) + AudioOf(b)
  {
    if a == [] {
      assert a + b == b;
    } else {
      AudioAppend(a[1..], b);
      assert (a + b)[0] == a[0] && (a + b)[1..] == a[1..] + b;
    }
  }

  lemma {:induction false} KindsOfVideo(us: seq<AccessUnit>)
    ensures VideoOf(AsVideo(us)) == us && AudioOf(AsVideo(us)) == []
  {
    if us != [] {
      KindsOfVideo(us[1..]);
      assert AsVideo(us)[1..] == AsVideo(us[1..]);
    }
  }

  lemma {:induction false} KindsOfAudio(us: seq<AccessUnit>)
    ensures AudioOf(AsAudio(us)) == us && VideoOf(AsAudio(us)) == []
  {
    if us != [] {
      KindsOfAudio(us[1..]);
      assert AsAudio(us)[1..] == AsAudio(us[1..]);
    }
  }

  function LastCc(d: State, pid: u16): Option<nat> { if pid in d.lastCc then Some(d.lastCc[pid]) else None }

  predicate IsVideoPid(d: State, v: u16) { d.videoPid == Some(v) && v != 0 && d.pmtPid != Some(v) }
  predicate IsAudioPid(d: State, a: u16) {
    d.audioPid == Some(a) && a != 0 && d.pmtPid != Some(a) && d.videoPid != Some(a)
  }

  lemma {:induction false} TakeAllCons(a: Assembly, p: Piece, ps: seq<Piece>, i: nat)
    requires i <= |ps|
    ensures TakeAll(a, [p] + ps, i + 1) == TakeAll(a, ps, i)
    decreases |ps| - i
  {
    if i < |ps| {
      assert ([p] + ps)[i + 1] == ps[i];
      TakeAllCons(Take(a, ps[i]).0, p, ps, i + 1);
    }
  }

  /** Reading a table touches neither assembly nor the counters. */
  predicate SameStreams(d: State, e: State) {
    e.video == d.video && e.audio == d.audio && e.lastCc == d.lastCc && e.continuityErrors == d.continuityErrors
  }

  lemma TablesLeaveStreams(d: State, payload: seq<u8>, start: bool)
    ensures SameStreams(d, ReadPat(d, payload, start))
    ensures SameStreams(d, ReadPmt(d, payload, start))
  {
    var s := Section(payload, start);
    if s.Some? && |s.value| >= 12 {
      var end := Min(Len12(s.value[1], s.value[2]) + 3 - 4, |s.value|);
      if end >= 0 { ScanLeavesStreams(d, s.value, 12 + Len12(s.value[10], s.value[11]), end); }
    }
  }

  lemma {:induction false} ScanLeavesStreams(d: State, s: seq<u8>, i: nat, end: nat)
    requires end <= |s|
    ensures SameStreams(d, ScanPmt(d, s, i, end))
    decreases end - i
  {
    if i + 5 <= end {
      var pid := Pid(s[i + 1], s[i + 2]);
      var d' := if s[i] == STREAM_TYPE_H264 then d.(videoPid := Some(pid))
                else if s[i] == STREAM_TYPE_LPCM then d.(audioPid := Some(pid)) else d;
      ScanLeavesStreams(d', s, i + 5 + Len12(s[i + 3], s[i + 4]), end);
    }
  }

  /** What a packet does to the streams of other PIDs: nothing. */
  lemma DispatchKeeps(d: State, t: TsPacket)
    ensures var (d1, us) := Dispatch(d, t);
      && (d.videoPid != Some(t.pid) || t.pid == 0 || d.pmtPid == Some(t.pid) ==>
            d1.video == d.video && VideoOf(us) == [])
      && (d.audioPid != Some(t.pid) ==> d1.audio == d.audio && AudioOf(us) == [])
      && d1.lastCc == d.lastCc && d1.continuityErrors == d.continuityErrors
  {
    if t.pid == 0 || d.pmtPid == Some(t.pid) {
      TablesLeaveStreams(d, t.payload, t.start);
    } else if d.videoPid == Some(t.pid) {
      KindsOfVideo(Feed(d.video, t.start, ParsePes(t.payload), t.payload).1);
    } else if d.audioPid == Some(t.pid) {
      KindsOfAudio(Feed(d.audio, t.start, ParsePes(t.payload), t.payload).1);
    }
  }

  lemma NotedKeeps(d: State, t: TsPacket)
    ensures var n := Noted(d, t);
      && n.lastCc == d.lastCc[t.pid := t.cc]
      && n.pmtPid == d.pmtPid && n.videoPid == d.videoPid && n.audioPid == d.audioPid
      && (d.videoPid != Some(t.pid) ==> n.video == d.video)
      && (d.audioPid != Some(t.pid) ==> n.audio == d.audio)
  {
  }

  /** Packets of another PID leave a stream's assembly and counter alone. */
  lemma OtherPid(d: State, t: TsPacket)
    ensures var (d1, us) := Receive(d, t);
      && (d.videoPid != Some(t.pid) ==> d1.video == d.video && VideoOf(us) == [])
      && (d.audioPid != Some(t.pid) ==> d1.audio == d.audio && AudioOf(us) == [])
      && d1.lastCc == d.lastCc[t.pid := t.cc]
  {
    NotedKeeps(d, t);
    DispatchKeeps(Noted(d, t), t);
  }

  lemma VideoStep(d: State, t: TsPacket, v: u16)
    requires IsVideoPid(d, v) && t.pid == v
    ensures var (d1, us) := Receive(d, t);
      d1.video == Take(d.video, PieceOf(t, LastCc(d, v))).0 && VideoOf(us) == Take(d.video, PieceOf(t, LastCc(d, v))).1
  {
    hide ParsePes;
    var n := Noted(d, t);
    KindsOfVideo(Feed(n.video, t.start, ParsePes(t.payload), t.payload).1);
  }

  lemma AudioStep(d: State, t: TsPacket, a: u16)
    requires IsAudioPid(d, a) && t.pid == a
    ensures var (d1, us) := Receive(d, t);
      d1.audio == Take(d.audio, PieceOf(t, LastCc(d, a))).0 && AudioOf(us) == Take(d.audio, PieceOf(t, LastCc(d, a))).1
  {
    hide ParsePes;
    var n := Noted(d, t);
    KindsOfAudio(Feed(n.audio, t.start, ParsePes(t.payload), t.payload).1);
  }

  /** Prepending a piece to a stream. */
  lemma TakeAllFirst(a: Assembly, p: Piece, ps: seq<Piece>)
    ensures TakeAll(a, [p] + ps, 0).1 == Take(a, p).1 + TakeAll(Take(a, p).0, ps, 0).1
  {
    TakeAllCons(Take(a, p).0, p, ps, 0);
  }

  lemma {:induction false} VideoRun(d: State, ts: seq<TsPacket>, v: u16)
    requires IsVideoPid(d, v) && Steady(d, ts)
    ensures VideoOf(ReceiveAll(d, ts).1) == TakeAll(d.video, Pieces(ts, v, LastCc(d, v)), 0).1
    decreases |ts|
  {
    if ts != [] {
      var (d1, u1) := Receive(d, ts[0]);
      OtherPid(d, ts[0]);
      VideoRun(d1, ts[1..], v);
      VideoAppend(u1, ReceiveAll(d1, ts[1..]).1);
      var rest := Pieces(ts[1..], v, LastCc(d1, v));
      if ts[0].pid == v {
        VideoStep(d, ts[0], v);
        TakeAllFirst(d.video, PieceOf(ts[0], LastCc(d, v)), rest);
      } else {
        assert [] + TakeAll(d.video, rest, 0).1 == TakeAll(d.video, rest, 0).1;
      }
    }
  }

  lemma {:induction false} AudioRun(d: State, ts: seq<TsPacket>, a: u16)
    requires IsAudioPid(d, a) && Steady(d, ts)
    ensures AudioOf(ReceiveAll(d, ts).1) == TakeAll(d.audio, Pieces(ts, a, LastCc(d, a)), 0).1
    decreases |ts|
  {
    if ts != [] {
      var (d1, u1) := Receive(d, ts[0]);
      OtherPid(d, ts[0]);
      AudioRun(d1, ts[1..], a);
      AudioAppend(u1, ReceiveAll(d1, ts[1..]).1);
      var rest := Pieces(ts[1..], a, LastCc(d1, a));
      if ts[0].pid == a {
        AudioStep(d, ts[0], a);
        TakeAllFirst(d.audio, PieceOf(ts[0], LastCc(d, a)), rest);
      } else {
        assert [] + TakeAll(d.audio, rest, 0).1 == TakeAll(d.audio, rest, 0).1;
      }
    }
  }

  lemma StreamsAreReference(d: State, ts: seq<TsPacket>, v: u16, a: u16)
    requires IsVideoPid(d, v) && IsAudioPid(d, a) && Steady(d, ts)
    requires !d.video.open && !d.audio.open
    ensures VideoOf(ReceiveAll(d, ts).1) == Reference(Pieces(ts, v, LastCc(d, v)), 0)
    ensures AudioOf(ReceiveAll(d, ts).1) == Reference(Pieces(ts, a, LastCc(d, a)), 0)
  {
    VideoRun(d, ts, v);
    AudioRun(d, ts, a);
    ClosedRest(d.video, Pieces(ts, v, LastCc(d, v)), 0);
    ClosedRest(d.audio, Pieces(ts, a, LastCc(d, a)), 0);
  }

  /** The demultiplexer refines the reference. For any packets whatever that leave
      the PIDs alone, the video units are exactly the reference's units for the
      video PID's packets, in order, and likewise for audio; so each PES packet is
      emitted at most once. */
  lemma DemuxIsReference(d: State, packets: seq<seq<u8>>, v: u16, a: u16)
    requires IsVideoPid(d, v) && IsAudioPid(d, a) && Steady(d, Readable(packets))
    requires !d.video.open && !d.audio.open
    ensures VideoOf(Run(d, packets).1) == Reference(Pieces(Readable(packets), v, LastCc(d, v)), 0)
    ensures AudioOf(Run(d, packets).1) == Reference(Pieces(Readable(packets), a, LastCc(d, a)), 0)
  {
    RunReceives(d, packets);
    StreamsAreReference(d, Readable(packets), v, a);
  }
}
