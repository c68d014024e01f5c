/** The sender's memory of recent frames, from which NACKs are answered. */
module Retransmit {
  import opened Common
  import opened Reassembly

  datatype Sent = Sent(frameNumber: u32, keyframe: bool, sentAtUs: nat, fragments: seq<seq<u8>>)

  predicate TooOld(x: Sent, nowUs: nat, maxAgeUs: nat) { SatSub(nowUs, x.sentAtUs) > maxAgeUs }

  /** Drops from the front only, and stops at the first frame young enough. */
  function Pruned(frames: seq<Sent>, nowUs: nat, maxAgeUs: nat): seq<Sent> {
    if frames != [] && TooOld(frames[0], nowUs, maxAgeUs) then Pruned(frames[1..], nowUs, maxAgeUs) else frames
  }

  /** The first frame with this number. */
  function Find(frames: seq<Sent>, n: u32): Option<Sent> {
    if frames == [] then None
    else if frames[0].frameNumber == n then Some(frames[0])
    else Find(frames[1..], n)
  }

  /** The fragments asked for that exist. */
  function Pick(fragments: seq<seq<u8>>, missing: seq<u16>): seq<seq<u8>> {
    if missing == [] then []
    else
      var i := missing[|missing| - 1];
      Pick(fragments, missing[..|missing| - 1]) + if i < |fragments| then [fragments[i]] else []
  }

  function Answer(frames: seq<Sent>, nack: Nack): seq<seq<u8>> {
    match Find(frames, nack.frameNumber)
    case None => []
    case Some(x) => Pick(x.fragments, nack.missing)
  }

  class RetransmitBuffer {
    const maxAgeUs: nat
    var frames: seq<Sent>

    constructor (maxAgeUs: nat)
      ensures this.maxAgeUs == maxAgeUs && frames == []
    {
      this.maxAgeUs := maxAgeUs;
      frames := [];
    }

    method Prune(nowUs: nat)
      modifies this
      ensures frames == Pruned(old(frames), nowUs, maxAgeUs)
    {
      while frames != []
        invariant Pruned(frames, nowUs, maxAgeUs) == Pruned(old(frames), nowUs, maxAgeUs)
        decreases |frames|
      {
        if SatSub(nowUs, frames[0].sentAtUs) > maxAgeUs {
          frames := frames[1..];
        } else {
          break;
        }
      }
    }

    method Record(frameNumber: u32, keyframe: bool, fragments: seq<seq<u8>>, sentAtUs: nat)
      modifies this
      ensures frames == Pruned(old(frames) + [Sent(frameNumber, keyframe, sentAtUs, fragments)], sentAtUs, maxAgeUs)
    {
      frames := frames + [Sent(frameNumber, keyframe, sentAtUs, fragments)];
      Prune(sentAtUs);
    }

    method Lookup(nack: Nack, nowUs: nat) returns (out: seq<seq<u8>>)
      modifies this
      ensures frames == Pruned(old(frames), nowUs, maxAgeUs)
      ensures out == Answer(frames, nack)
    {
      Prune(nowUs);
      out := [];
      var found := Find(frames, nack.frameNumber);
      if found.None? { return; }
      for k := 0 to |nack.missing|
        invariant out == Pick(found.value.fragments, nack.missing[..k])
        invariant frames == Pruned(old(frames), nowUs, maxAgeUs)
      {
        assert nack.missing[..k + 1][..k] == nack.missing[..k];
        var i := nack.missing[k];
        if i < |found.value.fragments| { out := out + [found.value.fragments[i]]; }
      }
      assert nack.missing[..|nack.missing|] == nack.missing;
    }
  }

  // ---- the buffer against the whole history -----------------------------

  datatype Op = Record(x: Sent) | Lookup(nack: Nack, nowUs: nat)

  function Time(op: Op): nat { if op.Record? then op.x.sentAtUs else op.nowUs }

  /** The frames held after a run. */
  function Held(ops: seq<Op>, maxAgeUs: nat): seq<Sent> {
    if ops == [] then []
    else
      var before, op := Held(ops[..|ops| - 1], maxAgeUs), ops[|ops| - 1];
      Pruned(if op.Record? then before + [op.x] else before, Time(op), maxAgeUs)
  }

  /** Everything ever recorded. */
  function History(ops: seq<Op>): seq<Sent> {
    if ops == [] then []
    else
      var op := ops[|ops| - 1];
      History(ops[..|ops| - 1]) + if op.Record? then [op.x] else []
  }

  function Retained(h: seq<Sent>, nowUs: nat, maxAgeUs: nat): seq<Sent> {
    if h == [] then []
    else if TooOld(h[0], nowUs, maxAgeUs) then Retained(h[1..], nowUs, maxAgeUs)
    else [h[0]] + Retained(h[1..], nowUs, maxAgeUs)
  }

  predicate Timely(h: seq<Sent>, upToUs: nat) {
    && (forall i, j :: 0 <= i < j < |h| ==> h[i].sentAtUs <= h[j].sentAtUs)
    && forall i :: 0 <= i < |h| ==> h[i].sentAtUs <= upToUs
  }

  /** The clock of a run never goes back. */
  predicate Clocked(ops: seq<Op>) {
    forall i, j :: 0 <= i < j < |ops| ==> Time(ops[i]) <= Time(ops[j])
  }

  lemma {:induction false} HistoryTimely(ops: seq<Op>, upToUs: nat)
    requires Clocked(ops) && forall i :: 0 <= i < |ops| ==> Time(ops[i]) <= upToUs
    ensures Timely(History(ops), upToUs)
  {
    if ops != [] {
      var front, op := ops[..|ops| - 1], ops[|ops| - 1];
      HistoryTimely(front, Time(op));
    }
  }

  lemma {:induction false} NoneTooOld(h: seq<Sent>, nowUs: nat, maxAgeUs: nat)
    requires Timely(h, nowUs) && (h == [] || !TooOld(h[0], nowUs, maxAgeUs))
    ensures Retained(h, nowUs, maxAgeUs) == h
  {
    if h != [] { NoneTooOld(h[1..], nowUs, maxAgeUs); }
  }

  /** On a history in time order, pruning the front of what an earlier time left
      is the same as filtering everything. */
  lemma {:induction false} PruneIsFilter(h: seq<Sent>, beforeUs: nat, nowUs: nat, maxAgeUs: nat)
    requires Timely(h, nowUs) && beforeUs <= nowUs
    ensures Pruned(Retained(h, beforeUs, maxAgeUs), nowUs, maxAgeUs) == Retained(h, nowUs, maxAgeUs)
  {
    if h != [] {
      PruneIsFilter(h[1..], beforeUs, nowUs, maxAgeUs);
      if !TooOld(h[0], beforeUs, maxAgeUs) {
        var r := Retained(h, beforeUs, maxAgeUs);
        assert r[0] == h[0] && r[1..] == Retained(h[1..], beforeUs, maxAgeUs);
        if !TooOld(h[0], nowUs, maxAgeUs) {
          NoneTooOld(h, nowUs, maxAgeUs);
          AllKept(h, beforeUs, nowUs, maxAgeUs);
        }
      }
    }
  }

  lemma {:induction false} AllKept(h: seq<Sent>, beforeUs: nat, nowUs: nat, maxAgeUs: nat)
    requires Timely(h, nowUs) && beforeUs <= nowUs && (h == [] || !TooOld(h[0], nowUs, maxAgeUs))
    ensures Retained(h, beforeUs, maxAgeUs) == h
  {
    if h != [] { AllKept(h[1..], beforeUs, nowUs, maxAgeUs); }
  }

  lemma {:induction false} RetainedSnoc(h: seq<Sent>, x: Sent, nowUs: nat, maxAgeUs: nat)
    ensures Retained(h + [x], nowUs, maxAgeUs)
         == Retained(h, nowUs, maxAgeUs) + if TooOld(x, nowUs, maxAgeUs) then [] else [x]
  {
    if h == [] {
      assert (h + [x])[1..] == [];
    } else {
      RetainedSnoc(h[1..], x, nowUs, maxAgeUs);
      assert (h + [x])[1..] == h[1..] + [x];
    }
  }

  /** Front-only pruning forgets nothing it should keep: after any run whose clock
      does not go back, the buffer is the history filtered by age. */
  lemma {:induction false} HeldIsRetained(ops: seq<Op>, maxAgeUs: nat)
    requires ops != [] && Clocked(ops)
    ensures Held(ops, maxAgeUs) == Retained(History(ops), Time(ops[|ops| - 1]), maxAgeUs)
  {
    var front, op := ops[..|ops| - 1], ops[|ops| - 1];
    var now := Time(op);
    HistoryTimely(front, now);
    HistoryTimely(ops, now);
    var h := History(front);
    if front == [] {
      assert Held(front, maxAgeUs) == Retained(h, now, maxAgeUs);
      PruneIsFilter(History(ops), now, now, maxAgeUs);
      if op.Record? { RetainedSnoc(h, op.x, now, maxAgeUs); }
    } else {
      var before := Time(front[|front| - 1]);
      HeldIsRetained(front, maxAgeUs);
      if op.Record? {
        RetainedSnoc(h, op.x, before, maxAgeUs);
        PruneIsFilter(h + [op.x], before, now, maxAgeUs);
      } else {
        assert h + [] == h;
        PruneIsFilter(h, before, now, maxAgeUs);
      }
    }
  }

  predicate UniqueNumbers(h: seq<Sent>) {
    forall i, j :: 0 <= i < j < |h| ==> h[i].frameNumber != h[j].frameNumber
  }

  /** With unique numbers, what is found is the one record with that number. */
  lemma {:induction false} FindRetained(h: seq<Sent>, k: nat, nowUs: nat, maxAgeUs: nat)
    requires UniqueNumbers(h) && k < |h|
    ensures Find(Retained(h, nowUs, maxAgeUs), h[k].frameNumber)
         == if TooOld(h[k], nowUs, maxAgeUs) then None else Some(h[k])
  {
    if k > 0 {
      FindRetained(h[1..], k - 1, nowUs, maxAgeUs);
    } else if TooOld(h[0], nowUs, maxAgeUs) {
      FindAbsent(h[1..], h[0].frameNumber, nowUs, maxAgeUs);
    }
  }

  lemma {:induction false} FindAbsent(h: seq<Sent>, n: u32, nowUs: nat, maxAgeUs: nat)
    requires forall i :: 0 <= i < |h| ==> h[i].frameNumber != n
    ensures Find(Retained(h, nowUs, maxAgeUs), n) == None
  {
    if h != [] { FindAbsent(h[1..], n, nowUs, maxAgeUs); }
  }

  /** A lookup answers as a filter over everything ever recorded would: with the
      asked-for fragments of the recorded frame exactly while it is young enough. */
  lemma LookupAgreesWithHistory(ops: seq<Op>, nack: Nack, nowUs: nat, maxAgeUs: nat, k: nat)
    requires Clocked(ops + [Lookup(nack, nowUs)])
    requires UniqueNumbers(History(ops)) && k < |History(ops)| && History(ops)[k].frameNumber == nack.frameNumber
    ensures Answer(Held(ops + [Lookup(nack, nowUs)], maxAgeUs), nack)
         == if TooOld(History(ops)[k], nowUs, maxAgeUs) then [] else Pick(History(ops)[k].fragments, nack.missing)
  {
    var all := ops + [Lookup(nack, nowUs)];
    HeldIsRetained(all, maxAgeUs);
    assert all[..|all| - 1] == ops;
    assert History(all) == History(ops) + [] == History(ops);
    FindRetained(History(ops), k, nowUs, maxAgeUs);
  }

  /** A number never recorded gets nothing. */
  lemma LookupOfUnknown(ops: seq<Op>, nack: Nack, nowUs: nat, maxAgeUs: nat)
    requires Clocked(ops + [Lookup(nack, nowUs)])
    requires forall i :: 0 <= i < |History(ops)| ==> History(ops)[i].frameNumber != nack.frameNumber
    ensures Answer(Held(ops + [Lookup(nack, nowUs)], maxAgeUs), nack) == []
  {
    var all := ops + [Lookup(nack, nowUs)];
    HeldIsRetained(all, maxAgeUs);
    assert all[..|all| - 1] == ops;
    assert History(all) == History(ops) + [] == History(ops);
    FindAbsent(History(ops), nack.frameNumber, nowUs, maxAgeUs);
  }
}
