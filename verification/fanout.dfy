/**
 The record's fan-out as a transition system. `Append` and `finish` commit to the log and take a
 snapshot of the subscribers under the lock, then send outside it, one channel at a time; every
 other actor may run between those sends. There is one producer, as for every record in the adapter.
 */
module Fanout {
  import opened ExecTypes
  import opened ExecLog

  type SubId = nat

  /**
   A subscriber. `joinedAt`, `upto` and `missed` are history: the log's length at subscription, one
   past the last sequence number whose send or replay was attempted, and the sequence numbers whose
   attempt found the buffer full.
   */
  datatype Sub = Sub(
    fromSeq: nat,
    registered: bool,
    buffer: seq<Chunk>,
    received: seq<Chunk>,
    joinedAt: nat,
    upto: nat,
    missed: set<nat>)

  /** `sending` is still to be offered to the channels in `pending`; the producer is idle when there are none. */
  datatype State = State(
    log: Log,
    subs: map<SubId, Sub>,
    sending: Chunk,
    pending: set<SubId>,
    panicked: bool)

  datatype Event =
    | Commit(op: Op)
    | Send(id: SubId)
    | Subscribe(id: SubId, fromSeq: nat)
    | Receive(id: SubId)
    | Cancel(id: SubId)

  function Init(maxBytes: int): State {
    State(FreshLog(maxBytes), map[], Chunk(0, Done, [], 0), {}, false)
  }

  predicate Enabled(s: State, e: Event) {
    && !s.panicked
    && match e
       case Commit(_) => s.pending == {}
       case Send(id) => id in s.pending && id in s.subs
       case Subscribe(id, _) => id !in s.subs
       case Receive(id) => id in s.subs && s.subs[id].buffer != []
       case Cancel(id) => id in s.subs
  }

  function Registered(s: State): set<SubId> {
    set id | id in s.subs && s.subs[id].registered
  }

  /** The sequence numbers a replay attempts on a full buffer. */
  function ReplayMissed(chunks: seq<Chunk>, fromSeq: nat): set<nat> {
    if chunks == [] then {}
    else
      var front, last := chunks[..|chunks| - 1], chunks[|chunks| - 1];
      ReplayMissed(front, fromSeq) +
      if last.seqNo >= fromSeq && |Replay(front, fromSeq)| >= SUBSCRIBER_SLOTS then {last.seqNo} else {}
  }

  function Attempt(sub: Sub, c: Chunk): Sub {
    if |sub.buffer| < SUBSCRIBER_SLOTS then
      sub.(buffer := sub.buffer + [c], upto := c.seqNo + 1)
    else
      sub.(missed := sub.missed + {c.seqNo}, upto := c.seqNo + 1)
  }

  function Take(sub: Sub): Sub
    requires sub.buffer != []
  {
    sub.(buffer := sub.buffer[1..], received := sub.received + [sub.buffer[0]])
  }

  /** A send to a channel that `cancel` has closed since the snapshot panics. */
  function Next(s: State, e: Event): State
    requires Enabled(s, e)
  {
    match e
    case Commit(op) =>
      var l := Step(s.log, op);
      if |l.chunks| == |s.log.chunks| then s.(log := l)
      else s.(log := l, sending := l.chunks[|l.chunks| - 1], pending := Registered(s))
    case Send(id) =>
      if s.subs[id].registered then
        s.(subs := s.subs[id := Attempt(s.subs[id], s.sending)], pending := s.pending - {id})
      else
        s.(panicked := true)
    case Subscribe(id, fromSeq) =>
      var n := |s.log.chunks|;
      s.(subs := s.subs[id := Sub(fromSeq, s.log.status == Running, Replay(s.log.chunks, fromSeq), [],
                                  n, n, ReplayMissed(s.log.chunks, fromSeq))])
    case Receive(id) =>
      s.(subs := s.subs[id := Take(s.subs[id])])
    case Cancel(id) =>
      s.(subs := s.subs[id := s.subs[id].(registered := false)])
  }

  /** A run: events that are not enabled when their turn comes are skipped. */
  function Play(s: State, events: seq<Event>): State {
    if events == [] then s
    else
      var before := Play(s, events[..|events| - 1]);
      var e := events[|events| - 1];
      if Enabled(before, e) then Next(before, e) else before
  }

  // ---------------------------------------------------------------- what a subscriber has seen

  /** Everything delivered to a subscriber: what it received, then what waits in its buffer. */
  function Seen(sub: Sub): seq<Chunk> {
    sub.received + sub.buffer
  }

  /** Where a subscriber's view of the log begins: live sends are not filtered by `fromSeq`. */
  function Start(sub: Sub): nat {
    Min(sub.fromSeq, sub.joinedAt)
  }

  /** The log entries at `a <= k < b` with `k` not in `missed`, in order. */
  function Kept(log: seq<Chunk>, a: nat, b: nat, missed: set<nat>): seq<Chunk>
    requires b <= |log|
  {
    if b <= a then []
    else Kept(log, a, b - 1, missed) + if b - 1 in missed then [] else [log[b - 1]]
  }

  /** What holds of one subscriber; `awaited` says that the chunk in flight is still to be offered to it. */
  ghost predicate SubOk(log: seq<Chunk>, awaited: bool, sub: Sub) {
    && sub.joinedAt <= sub.upto <= |log|
    && (awaited ==> sub.upto == |log| - 1)
    && (sub.registered && !awaited ==> sub.upto == |log|)
    && (forall m | m in sub.missed :: Start(sub) + SUBSCRIBER_SLOTS <= m < sub.upto)
    && Seen(sub) == Kept(log, Start(sub), sub.upto, sub.missed)
    && |sub.buffer| <= SUBSCRIBER_SLOTS
  }

  /** The inductive invariant of the fan-out. */
  ghost predicate Inv(s: State) {
    && WellFormed(s.log)
    && s.pending <= s.subs.Keys
    && (s.pending != {} ==> s.log.chunks != [] && s.sending == s.log.chunks[|s.log.chunks| - 1])
    && forall id | id in s.subs :: SubOk(s.log.chunks, id in s.pending, s.subs[id])
  }

  lemma {:induction false} KeptAgree(log: seq<Chunk>, log': seq<Chunk>, a: nat, b: nat, m: set<nat>, m': set<nat>)
    requires b <= |log| && log <= log'
    requires forall k :: a <= k < b ==> (k in m <==> k in m')
    ensures Kept(log, a, b, m) == Kept(log', a, b, m')
    decreases b
  {
    if a < b {
      KeptAgree(log, log', a, b - 1, m, m');
    }
  }

  lemma {:induction false} KeptSplit(log: seq<Chunk>, a: nat, c: nat, b: nat, missed: set<nat>)
    requires a <= c <= b <= |log|
    ensures Kept(log, a, b, missed) == Kept(log, a, c, missed) + Kept(log, c, b, missed)
    decreases b
  {
    if c < b {
      KeptSplit(log, a, c, b - 1, missed);
    }
  }

  lemma {:induction false} KeptWhole(log: seq<Chunk>, a: nat, b: nat, missed: set<nat>)
    requires a <= b <= |log| && forall k :: a <= k < b ==> k !in missed
    ensures Kept(log, a, b, missed) == log[a..b]
    decreases b
  {
    if a < b {
      KeptWhole(log, a, b - 1, missed);
    }
  }

  lemma {:induction false} KeptNone(log: seq<Chunk>, a: nat, b: nat, missed: set<nat>)
    requires b <= |log| && forall k :: a <= k < b ==> k in missed
    ensures Kept(log, a, b, missed) == []
    decreases b
  {
    if a < b {
      KeptNone(log, a, b - 1, missed);
    }
  }

  lemma {:induction false} ReplayMissedIs(chunks: seq<Chunk>, fromSeq: nat)
    requires Numbered(chunks)
    ensures forall k: nat :: k in ReplayMissed(chunks, fromSeq) <==> fromSeq + SUBSCRIBER_SLOTS <= k < |chunks|
    decreases |chunks|
  {
    if chunks != [] {
      var front := chunks[..|chunks| - 1];
      ReplayMissedIs(front, fromSeq);
      ReplayIsSlice(front, fromSeq);
    }
  }

  /** A replay is the log from `fromSeq`, without exactly the numbers it attempted on a full buffer. */
  lemma {:induction false} ReplayIsKept(log: seq<Chunk>, fromSeq: nat)
    requires Numbered(log)
    ensures Replay(log, fromSeq) == Kept(log, Min(fromSeq, |log|), |log|, ReplayMissed(log, fromSeq))
  {
    var missed, full := ReplayMissed(log, fromSeq), Min(fromSeq + SUBSCRIBER_SLOTS, |log|);
    ReplayIsSlice(log, fromSeq);
    ReplayMissedIs(log, fromSeq);
    if fromSeq < |log| {
      KeptSplit(log, fromSeq, full, |log|, missed);
      KeptWhole(log, fromSeq, full, missed);
      KeptNone(log, full, |log|, missed);
    }
  }

  lemma {:induction false} GrowOk(log: seq<Chunk>, log': seq<Chunk>, awaited: bool, sub: Sub)
    requires SubOk(log, false, sub) && log <= log'
    requires if awaited then sub.registered && |log'| == |log| + 1 else log' == log || !sub.registered
    ensures SubOk(log', awaited, sub)
  {
    KeptAgree(log, log', Start(sub), sub.upto, sub.missed, sub.missed);
  }

  lemma {:induction false} AttemptOk(log: seq<Chunk>, sub: Sub)
    requires Numbered(log) && SubOk(log, true, sub)
    ensures SubOk(log, false, Attempt(sub, log[|log| - 1]))
  {
    var sub' := Attempt(sub, log[|log| - 1]);
    KeptAgree(log, log, Start(sub), sub.upto, sub.missed, sub'.missed);
    KeptLength(log, Start(sub), sub.upto, sub.missed);
    assert sub'.upto == |log| && sub.upto == |log| - 1;
    assert |sub.buffer| < SUBSCRIBER_SLOTS ==> Seen(sub') == Seen(sub) + [log[|log| - 1]];
  }

  lemma {:induction false} ReplayOk(log: seq<Chunk>, running: bool, fromSeq: nat)
    requires Numbered(log)
    ensures SubOk(log, false,
                  Sub(fromSeq, running, Replay(log, fromSeq), [], |log|, |log|, ReplayMissed(log, fromSeq)))
  {
    ReplayIsKept(log, fromSeq);
    ReplayIsSlice(log, fromSeq);
    ReplayMissedIs(log, fromSeq);
    assert [] + Replay(log, fromSeq) == Replay(log, fromSeq);
  }

  lemma {:induction false} TakeOk(log: seq<Chunk>, awaited: bool, sub: Sub)
    requires SubOk(log, awaited, sub) && sub.buffer != []
    ensures SubOk(log, awaited, Take(sub))
  {
    assert Seen(Take(sub)) == Seen(sub);
  }

  lemma {:induction false} CancelOk(log: seq<Chunk>, awaited: bool, sub: Sub)
    requires SubOk(log, awaited, sub)
    ensures SubOk(log, awaited, sub.(registered := false))
  {
  }

  lemma {:induction false} CommitKeepsInv(s: State, op: Op)
    requires Inv(s) && Enabled(s, Commit(op))
    ensures Inv(Next(s, Commit(op)))
  {
    hide SubOk;
    var t := Next(s, Commit(op));
    StepKeepsWellFormed(s.log, op);
    StepExtends(s.log, op);
    forall id | id in t.subs ensures SubOk(t.log.chunks, id in t.pending, t.subs[id]) {
      GrowOk(s.log.chunks, t.log.chunks, id in t.pending, s.subs[id]);
    }
  }

  /** A step that touches one subscriber, and at most removes it from the snapshot. */
  lemma {:induction false} OneSubKeepsInv(s: State, id: SubId, sub: Sub, pending: set<SubId>)
    requires Inv(s) && (pending == s.pending || pending == s.pending - {id})
    requires SubOk(s.log.chunks, id in pending, sub)
    ensures Inv(s.(subs := s.subs[id := sub], pending := pending))
  {
    hide SubOk;
    hide WellFormed;
    var t := s.(subs := s.subs[id := sub], pending := pending);
    forall k | k in t.subs ensures SubOk(t.log.chunks, k in t.pending, t.subs[k]) {
      if k != id {
        assert SubOk(s.log.chunks, k in s.pending, s.subs[k]);
      }
    }
  }

  lemma {:induction false} NextKeepsInv(s: State, e: Event)
    requires Inv(s) && Enabled(s, e)
    ensures Inv(Next(s, e))
  {
    hide SubOk;
    assert Numbered(s.log.chunks);
    hide WellFormed;
    match e
    case Commit(op) => CommitKeepsInv(s, op);
    case Send(id) =>
      AttemptOk(s.log.chunks, s.subs[id]);
      OneSubKeepsInv(s, id, Attempt(s.subs[id], s.sending), s.pending - {id});
    case Subscribe(id, fromSeq) =>
      ReplayOk(s.log.chunks, s.log.status == Running, fromSeq);
      OneSubKeepsInv(s, id, Next(s, e).subs[id], s.pending);
    case Receive(id) =>
      TakeOk(s.log.chunks, id in s.pending, s.subs[id]);
      OneSubKeepsInv(s, id, Take(s.subs[id]), s.pending);
    case Cancel(id) =>
      CancelOk(s.log.chunks, id in s.pending, s.subs[id]);
      OneSubKeepsInv(s, id, s.subs[id].(registered := false), s.pending);
  }

  lemma {:induction false} PlayKeepsInv(s: State, events: seq<Event>)
    requires Inv(s)
    ensures Inv(Play(s, events))
    decreases |events|
  {
    hide Inv;
    if events != [] {
      PlayKeepsInv(s, events[..|events| - 1]);
      var before := Play(s, events[..|events| - 1]);
      if Enabled(before, events[|events| - 1]) {
        NextKeepsInv(before, events[|events| - 1]);
      }
    }
  }

  ghost predicate Reachable(s: State) {
    exists maxBytes: int, events: seq<Event> :: s == Play(Init(maxBytes), events)
  }

  lemma {:induction false} InitInv(maxBytes: int)
    ensures Inv(Init(maxBytes))
  {
  }

  lemma {:induction false} ReachableInv(s: State)
    requires Reachable(s)
    ensures Inv(s)
  {
    hide Inv;
    var maxBytes: int, events: seq<Event> :| s == Play(Init(maxBytes), events);
    InitInv(maxBytes);
    PlayKeepsInv(Init(maxBytes), events);
  }

  /** The part of the invariant that speaks of one subscriber. */
  lemma {:induction false} ReachableSub(s: State, id: SubId)
    requires Reachable(s) && id in s.subs
    ensures SubOk(s.log.chunks, id in s.pending, s.subs[id]) && Numbered(s.log.chunks)
    ensures id in s.pending ==> s.log.chunks != [] && s.sending == s.log.chunks[|s.log.chunks| - 1]
  {
    hide SubOk;
    ReachableInv(s);
  }

  // ---------------------------------------------------------------- main results

  /**
   In every reachable interleaving, what a subscriber was given is the log from its start up to the
   last attempt, less exactly the sequence numbers attempted on a full buffer, none of them among the first 64.
   */
  lemma {:induction false} SeesLogExceptMissed(s: State, id: SubId)
    requires Reachable(s) && id in s.subs
    ensures var sub := s.subs[id];
            && Start(sub) <= sub.upto <= |s.log.chunks|
            && Seen(sub) == Kept(s.log.chunks, Start(sub), sub.upto, sub.missed)
            && (forall m | m in sub.missed :: Start(sub) + SUBSCRIBER_SLOTS <= m < sub.upto)
  {
    ReachableSub(s, id);
  }

  ghost predicate StrictlyIncreasing(chunks: seq<Chunk>) {
    forall i, j :: 0 <= i < j < |chunks| ==> chunks[i].seqNo < chunks[j].seqNo
  }

  /** Every entry of `seen` is the log's entry under its own number, within the bounds. */
  ghost predicate Faithful(log: seq<Chunk>, a: nat, b: nat, seen: seq<Chunk>) {
    forall i :: 0 <= i < |seen| ==> a <= seen[i].seqNo < b <= |log| && seen[i] == log[seen[i].seqNo]
  }

  lemma {:induction false} KeptFaithful(log: seq<Chunk>, a: nat, b: nat, missed: set<nat>)
    requires Numbered(log) && b <= |log|
    ensures Faithful(log, a, b, Kept(log, a, b, missed))
    decreases b
  {
    if a < b {
      KeptFaithful(log, a, b - 1, missed);
      var before, seen := Kept(log, a, b - 1, missed), Kept(log, a, b, missed);
      hide Kept;
      assert forall i :: 0 <= i < |before| ==> seen[i] == before[i];
    }
  }

  lemma {:induction false} IncreasingSnoc(chunks: seq<Chunk>, c: Chunk)
    requires StrictlyIncreasing(chunks)
    requires forall i :: 0 <= i < |chunks| ==> chunks[i].seqNo < c.seqNo
    ensures StrictlyIncreasing(chunks + [c])
  {
  }

  lemma {:induction false} KeptOrdered(log: seq<Chunk>, a: nat, b: nat, missed: set<nat>)
    requires Numbered(log) && b <= |log|
    ensures StrictlyIncreasing(Kept(log, a, b, missed))
    decreases b
  {
    if a < b {
      KeptOrdered(log, a, b - 1, missed);
      KeptFaithful(log, a, b - 1, missed);
      IncreasingSnoc(Kept(log, a, b - 1, missed), log[b - 1]);
      assert b - 1 in missed ==> Kept(log, a, b, missed) == Kept(log, a, b - 1, missed);
    }
  }

  /**
   Strict order, no duplicates, fidelity to the log, and nothing below where the subscription began:
   at or above `fromSeq`, provided `fromSeq` did not lie beyond the log when it was given.
   */
  lemma {:induction false} DeliveredInOrder(s: State, id: SubId)
    requires Reachable(s) && id in s.subs
    ensures var sub := s.subs[id];
            && StrictlyIncreasing(Seen(sub))
            && Faithful(s.log.chunks, Start(sub), |s.log.chunks|, Seen(sub))
            && (sub.fromSeq <= sub.joinedAt ==>
                  forall i :: 0 <= i < |Seen(sub)| ==> sub.fromSeq <= Seen(sub)[i].seqNo)
  {
    ReachableSub(s, id);
    var sub := s.subs[id];
    KeptOrdered(s.log.chunks, Start(sub), sub.upto, sub.missed);
    KeptFaithful(s.log.chunks, Start(sub), sub.upto, sub.missed);
  }

  /** With nothing missed, a registered subscriber has the log from its start, counting the chunk in flight to it. */
  lemma {:induction false} NothingMissedIsAll(s: State, id: SubId)
    requires Reachable(s) && id in s.subs
    requires s.subs[id].registered && s.subs[id].missed == {}
    ensures Start(s.subs[id]) <= |s.log.chunks|
    ensures Seen(s.subs[id]) + (if id in s.pending then [s.sending] else []) ==
            s.log.chunks[Start(s.subs[id])..]
  {
    ReachableSub(s, id);
    var sub, log := s.subs[id], s.log.chunks;
    KeptWhole(log, Start(sub), sub.upto, {});
    if id in s.pending {
      assert log[Start(sub)..] == log[Start(sub)..sub.upto] + [s.sending];
    } else {
      assert log[Start(sub)..] == log[Start(sub)..sub.upto];
    }
  }

  // ---------------------------------------------------------------- what a step does to a subscriber

  /**
   A send puts the chunk into the channel exactly if one of its 64 slots is free, and otherwise counts it as
   missed; nothing else changes, but that this channel is done with.
   */
  lemma {:induction false} SendGoesThroughIff(s: State, id: SubId)
    requires Enabled(s, Send(id)) && s.subs[id].registered
    ensures var t, was := Next(s, Send(id)), s.subs[id];
            && id in t.subs
            && t.subs[id].buffer == (if |was.buffer| < 64 then was.buffer + [s.sending] else was.buffer)
            && t.subs[id].buffer == Offered(was.buffer, SUBSCRIBER_SLOTS, s.sending)
            && t.subs[id].missed == (if |was.buffer| < 64 then was.missed else was.missed + {s.sending.seqNo})
            && t.subs[id] == was.(buffer := t.subs[id].buffer, missed := t.subs[id].missed, upto := s.sending.seqNo + 1)
            && t == s.(subs := s.subs[id := t.subs[id]], pending := s.pending - {id})
  {
  }

  /**
   A subscription to a log starts with its first 64 entries from `fromSeq`, whatever follows them is missed,
   and it is served further exactly while the exec runs.
   */
  lemma {:induction false} SubscribeReplays(s: State, id: SubId, fromSeq: nat)
    requires Enabled(s, Subscribe(id, fromSeq)) && Numbered(s.log.chunks)
    ensures var t, log := Next(s, Subscribe(id, fromSeq)), s.log.chunks;
            && id in t.subs && t == s.(subs := s.subs[id := t.subs[id]])
            && t.subs[id].received == []
            && t.subs[id].buffer == log[Min(fromSeq, |log|)..Min(fromSeq + 64, |log|)]
            && (forall m: nat :: m in t.subs[id].missed <==> fromSeq + 64 <= m < |log|)
            && (t.subs[id].registered <==> s.log.status == Running)
  {
    ReplayIsSlice(s.log.chunks, fromSeq);
    ReplayMissedIs(s.log.chunks, fromSeq);
  }

  /** A receive takes the oldest chunk of the buffer, and a cancel only unregisters. */
  lemma {:induction false} ReceiveTakesOldest(s: State, id: SubId)
    requires Enabled(s, Cancel(id))
    ensures Next(s, Cancel(id)) == s.(subs := s.subs[id := s.subs[id].(registered := false)])
    ensures s.subs[id].buffer != [] ==>
              && Enabled(s, Receive(id))
              && id in Next(s, Receive(id)).subs
              && var sub := Next(s, Receive(id)).subs[id];
                 && s.subs[id].buffer == [sub.received[|s.subs[id].received|]] + sub.buffer
                 && sub.received[..|s.subs[id].received|] == s.subs[id].received
                 && |sub.received| == |s.subs[id].received| + 1
                 && sub == s.subs[id].(received := sub.received, buffer := sub.buffer)
                 && Next(s, Receive(id)) == s.(subs := s.subs[id := sub])
  {
  }

  /** At this step number `m` was attempted for the subscriber, by a send or a replay, with 64 chunks buffered. */
  ghost predicate FullAttempt(s: State, e: Event, id: SubId, m: nat) {
    && Enabled(s, e)
    && match e
       case Send(k) => k == id && s.subs[id].registered && m == s.sending.seqNo && |s.subs[id].buffer| >= 64
       case Subscribe(k, from) => k == id && from <= m < |s.log.chunks| && |s.log.chunks[from..m]| >= 64
       case _ => false
  }

  /** Some attempt of number `m` in the run found 64 chunks buffered for the subscriber. */
  ghost predicate FoundFull(maxBytes: int, events: seq<Event>, id: SubId, m: nat) {
    exists i :: 0 <= i < |events| && FullAttempt(Play(Init(maxBytes), events[..i]), events[i], id, m)
  }

  ghost predicate Missed(s: State, id: SubId, m: nat) {
    id in s.subs && m in s.subs[id].missed
  }

  lemma {:induction false} StepMisses(s: State, e: Event, id: SubId, m: nat)
    requires Numbered(s.log.chunks) && Enabled(s, e)
    ensures Missed(Next(s, e), id, m) <==> Missed(s, id, m) || FullAttempt(s, e, id, m)
  {
    match e
    case Send(k) =>
      if s.subs[k].registered {
        SendGoesThroughIff(s, k);
        hide Next;
      }
    case Subscribe(k, from) =>
      SubscribeReplays(s, k, from);
      hide Next;
    case _ =>
  }

  lemma {:induction false} FoundFullFront(maxBytes: int, events: seq<Event>, id: SubId, m: nat)
    requires events != []
    ensures var front := events[..|events| - 1];
            FoundFull(maxBytes, events, id, m) <==>
            FoundFull(maxBytes, front, id, m) || FullAttempt(Play(Init(maxBytes), front), events[|front|], id, m)
  {
    hide FullAttempt;
    hide Play;
    var front := events[..|events| - 1];
    assert forall i :: 0 <= i < |front| ==> front[..i] == events[..i] && front[i] == events[i];
    if FoundFull(maxBytes, front, id, m) {
      var i :| 0 <= i < |front| && FullAttempt(Play(Init(maxBytes), front[..i]), front[i], id, m);
      assert FullAttempt(Play(Init(maxBytes), events[..i]), events[i], id, m);
    }
    if FoundFull(maxBytes, events, id, m) {
      var i :| 0 <= i < |events| && FullAttempt(Play(Init(maxBytes), events[..i]), events[i], id, m);
      if i < |front| {
        assert FullAttempt(Play(Init(maxBytes), front[..i]), front[i], id, m);
      }
    }
  }

  /** Over every run, a number counts as missed if and only if its attempt found 64 chunks buffered. */
  lemma {:induction false} MissedIffFoundFull(maxBytes: int, events: seq<Event>, id: SubId, m: nat)
    ensures Missed(Play(Init(maxBytes), events), id, m) <==> FoundFull(maxBytes, events, id, m)
    decreases |events|
  {
    hide FullAttempt;
    hide Missed;
    hide Next;
    hide Inv;
    if events == [] {
      assert !Missed(Init(maxBytes), id, m) by { NobodyYet(maxBytes, id, m); }
    } else {
      var front, e := events[..|events| - 1], events[|events| - 1];
      MissedIffFoundFull(maxBytes, front, id, m);
      FoundFullFront(maxBytes, events, id, m);
      hide FoundFull;
      var before := Play(Init(maxBytes), front);
      InitInv(maxBytes);
      PlayKeepsInv(Init(maxBytes), front);
      InvNumbered(before);
      if Enabled(before, e) {
        StepMisses(before, e, id, m);
      } else {
        OnlyEnabledAttempts(before, e, id, m);
      }
    }
  }

  lemma {:induction false} NobodyYet(maxBytes: int, id: SubId, m: nat)
    ensures !Missed(Init(maxBytes), id, m)
  {
  }

  lemma {:induction false} OnlyEnabledAttempts(s: State, e: Event, id: SubId, m: nat)
    ensures FullAttempt(s, e, id, m) ==> Enabled(s, e)
  {
  }

  lemma {:induction false} InvNumbered(s: State)
    requires Inv(s)
    ensures Numbered(s.log.chunks)
  {
    hide SubOk;
  }

  /**
   A registered subscriber for which no attempt of the run found 64 chunks buffered has missed nothing, even
   when it subscribed between the producer's unlock and its sends: what it received, what is buffered and the
   chunk still in flight to it are exactly the log from its start.
   */
  lemma {:induction false} NeverFullMissesNothing(maxBytes: int, events: seq<Event>, id: SubId)
    requires id in Play(Init(maxBytes), events).subs && Play(Init(maxBytes), events).subs[id].registered
    requires forall m: nat :: !FoundFull(maxBytes, events, id, m)
    ensures var s := Play(Init(maxBytes), events);
            && Start(s.subs[id]) <= |s.log.chunks|
            && Seen(s.subs[id]) + (if id in s.pending then [s.sending] else []) == s.log.chunks[Start(s.subs[id])..]
  {
    hide Play;
    hide FoundFull;
    var s := Play(Init(maxBytes), events);
    assert Reachable(s);
    forall m: nat ensures m !in s.subs[id].missed {
      MissedIffFoundFull(maxBytes, events, id, m);
    }
    assert s.subs[id].missed == {};
    hide Reachable;
    NothingMissedIsAll(s, id);
  }

  lemma {:induction false} KeptLast(log: seq<Chunk>, a: nat, b: nat, missed: set<nat>)
    requires Numbered(log) && b <= |log| && Kept(log, a, b, missed) != []
    ensures var seen := Kept(log, a, b, missed);
            var last := seen[|seen| - 1].seqNo;
            && a <= last < b && last !in missed
            && (forall k :: last < k < b ==> k in missed)
    decreases b
  {
    if b - 1 in missed {
      KeptLast(log, a, b - 1, missed);
    }
  }

  lemma {:induction false} KeptLength(log: seq<Chunk>, a: nat, b: nat, missed: set<nat>)
    requires a <= b <= |log|
    ensures |Kept(log, a, b, missed)| <= b - a
    ensures (exists m :: a <= m < b && m in missed) ==> |Kept(log, a, b, missed)| < b - a
    decreases b
  {
    if a < b {
      KeptLength(log, a, b - 1, missed);
    }
  }

  lemma {:induction false} KeptUpToLast(log: seq<Chunk>, a: nat, b: nat, missed: set<nat>, last: nat)
    requires a <= last < b <= |log| && forall k :: last < k < b ==> k in missed
    ensures Kept(log, a, b, missed) == Kept(log, a, last + 1, missed)
  {
    hide Kept;
    KeptSplit(log, a, last + 1, b, missed);
    KeptNone(log, last + 1, b, missed);
  }

  lemma {:induction false} KeptIsSliceIff(log: seq<Chunk>, a: nat, b: nat, missed: set<nat>)
    requires Numbered(log) && a <= b <= |log| && Kept(log, a, b, missed) != []
    requires forall m | m in missed :: a <= m
    ensures var seen := Kept(log, a, b, missed);
            var last := seen[|seen| - 1].seqNo;
            && a <= last < b
            && (seen == log[a..last + 1] <==> forall m | m in missed :: m > last)
  {
    var seen := Kept(log, a, b, missed);
    var last := seen[|seen| - 1].seqNo;
    KeptLast(log, a, b, missed);
    hide Kept;
    hide Numbered;
    KeptUpToLast(log, a, b, missed, last);
    if forall m | m in missed :: m > last {
      KeptWhole(log, a, last + 1, missed);
    } else {
      KeptLength(log, a, last + 1, missed);
    }
  }

  /**
   Exactly when reconnecting with the last sequence number seen loses nothing: when no chunk missed
   while the exec ran lies below it.
   */
  lemma {:induction false} ResumeLosesNothingIff(s: State, id: SubId)
    requires Reachable(s) && id in s.subs && Seen(s.subs[id]) != []
    ensures var sub := s.subs[id];
            var last := Seen(sub)[|Seen(sub)| - 1].seqNo;
            && Start(sub) <= last < |s.log.chunks|
            && (Seen(sub) == s.log.chunks[Start(sub)..last + 1] <==> forall m | m in sub.missed :: m > last)
  {
    ReachableSub(s, id);
    KeptIsSliceIff(s.log.chunks, Start(s.subs[id]), s.subs[id].upto, s.subs[id].missed);
  }

  /** The producer's calls are those of the adapter: output of the two streams, and terminal finishes. */
  ghost predicate ProperCommits(events: seq<Event>) {
    forall i :: 0 <= i < |events| && events[i].Commit? ==> Proper(events[i].op)
  }

  lemma {:induction false} DoneMatchesRun(maxBytes: int, events: seq<Event>)
    requires ProperCommits(events)
    ensures DoneMatchesStatus(Play(Init(maxBytes), events).log)
    decreases |events|
  {
    hide DoneMatchesStatus;
    hide Inv;
    if events == [] {
      assert DoneMatchesStatus(FreshLog(maxBytes)) by { RunWellFormed(maxBytes, []); }
    } else {
      var front, e := events[..|events| - 1], events[|events| - 1];
      DoneMatchesRun(maxBytes, front);
      InitInv(maxBytes);
      PlayKeepsInv(Init(maxBytes), front);
      var before := Play(Init(maxBytes), front);
      assert WellFormed(before.log) by { assert Inv(before); WellFormedLog(before); }
      if e.Commit? && Enabled(before, e) {
        StepKeepsDone(before.log, e.op);
      }
    }
  }

  lemma {:induction false} WellFormedLog(s: State)
    requires Inv(s)
    ensures WellFormed(s.log)
  {
    hide SubOk;
  }

  /**
   Over every run of the adapter's calls, whoever reads a Done chunk finds the record finished, with that
   exit code: what `Wait` returns is final.
   */
  lemma {:induction false} DoneSeenMeansFinished(maxBytes: int, events: seq<Event>, id: SubId, i: nat)
    requires ProperCommits(events)
    requires var s := Play(Init(maxBytes), events);
             id in s.subs && i < |Seen(s.subs[id])| && Seen(s.subs[id])[i].kind == Done
    ensures var s := Play(Init(maxBytes), events);
            s.log.status != Running && Seen(s.subs[id])[i].exitCode == s.log.exitCode
  {
    hide Play;
    var s := Play(Init(maxBytes), events);
    assert Reachable(s);
    DoneMatchesRun(maxBytes, events);
    DeliveredInOrder(s, id);
    var k := Seen(s.subs[id])[i].seqNo;
    assert s.log.chunks[k].kind == Done;
  }

  // ---------------------------------------------------------------- cancel in the send window

  /** Some channel of the snapshot is already closed. */
  ghost predicate Doomed(s: State) {
    exists id :: id in s.pending && id in s.subs && !s.subs[id].registered
  }

  /** A cancel that lands between the producer's snapshot and its send to that channel. */
  ghost predicate WindowCancel(s: State, e: Event) {
    e.Cancel? && Enabled(s, e) && e.id in s.pending
  }

  ghost predicate NoWindowCancel(s: State, events: seq<Event>) {
    forall i :: 0 <= i < |events| ==> !WindowCancel(Play(s, events[..i]), events[i])
  }

  lemma {:induction false} NoWindowPrefix(s: State, events: seq<Event>)
    requires events != [] && NoWindowCancel(s, events)
    ensures NoWindowCancel(s, events[..|events| - 1])
    ensures !WindowCancel(Play(s, events[..|events| - 1]), events[|events| - 1])
  {
    hide WindowCancel;
    var front := events[..|events| - 1];
    forall i | 0 <= i < |front| ensures !WindowCancel(Play(s, front[..i]), front[i]) {
      assert front[..i] == events[..i] && front[i] == events[i];
    }
  }

  lemma {:induction false} NextNotDoomed(s: State, e: Event)
    requires Inv(s) && Enabled(s, e) && !Doomed(s) && !WindowCancel(s, e)
    ensures !Next(s, e).panicked && !Doomed(Next(s, e))
  {
    hide SubOk;
    hide WellFormed;
  }

  /** Without a cancel in the window the producer never sends on a closed channel. */
  lemma {:induction false} NoWindowNoPanic(maxBytes: int, events: seq<Event>)
    requires NoWindowCancel(Init(maxBytes), events)
    ensures !Play(Init(maxBytes), events).panicked && !Doomed(Play(Init(maxBytes), events))
    decreases |events|
  {
    hide WindowCancel;
    hide NoWindowCancel;
    hide Inv;
    if events != [] {
      var front, e := events[..|events| - 1], events[|events| - 1];
      NoWindowPrefix(Init(maxBytes), events);
      NoWindowNoPanic(maxBytes, front);
      InitInv(maxBytes);
      PlayKeepsInv(Init(maxBytes), front);
      if Enabled(Play(Init(maxBytes), front), e) {
        NextNotDoomed(Play(Init(maxBytes), front), e);
      }
    }
  }

  /** A closed channel of the snapshot stays there: only the panic ends the wait for it. */
  lemma {:induction false} DoomIsStable(s: State, id: SubId, e: Event)
    requires id in s.pending && id in s.subs && !s.subs[id].registered && Enabled(s, e)
    ensures var t := Next(s, e);
            t.panicked || (id in t.pending && id in t.subs && !t.subs[id].registered)
  {
  }

  lemma {:induction false} DoomLasts(s: State, id: SubId, later: seq<Event>)
    requires id in s.pending && id in s.subs && !s.subs[id].registered
    ensures var t := Play(s, later);
            t.panicked || (id in t.pending && id in t.subs && !t.subs[id].registered)
    decreases |later|
  {
    if later != [] {
      var front, e := later[..|later| - 1], later[|later| - 1];
      DoomLasts(s, id, front);
      if Enabled(Play(s, front), e) {
        DoomIsStable(Play(s, front), id, e);
      }
    }
  }

  /** After such a cancel the producer never becomes idle again, and its send to that channel panics. */
  lemma {:induction false} WindowCancelDooms(s: State, id: SubId, later: seq<Event>)
    requires WindowCancel(s, Cancel(id))
    ensures var t := Play(Next(s, Cancel(id)), later);
            && (forall op :: !Enabled(t, Commit(op)))
            && (t.panicked || (Enabled(t, Send(id)) && Next(t, Send(id)).panicked))
  {
    DoomLasts(Next(s, Cancel(id)), id, later);
  }

  /**
   Exactly when a run is safe from the panic, whichever sends are still to come: when no cancel landed between
   a snapshot and its send.
   */
  lemma {:induction false} SafeIffNoWindowCancel(maxBytes: int, events: seq<Event>)
    ensures NoWindowCancel(Init(maxBytes), events) <==>
            !Play(Init(maxBytes), events).panicked && !Doomed(Play(Init(maxBytes), events))
  {
    var s := Init(maxBytes);
    if NoWindowCancel(s, events) {
      NoWindowNoPanic(maxBytes, events);
    } else {
      var i :| 0 <= i < |events| && WindowCancel(Play(s, events[..i]), events[i]);
      var before, id, later := Play(s, events[..i]), events[i].id, events[i + 1..];
      assert events[..i + 1][..i] == events[..i];
      assert Play(s, events[..i + 1]) == Next(before, events[i]);
      assert events == events[..i + 1] + later;
      PlayConcat(s, events[..i + 1], later);
      SnapshotsAreKnown(maxBytes, events[..i], id);
      DoomLasts(Next(before, events[i]), id, later);
    }
  }

  lemma {:induction false} SnapshotsAreKnown(maxBytes: int, events: seq<Event>, id: SubId)
    requires id in Play(Init(maxBytes), events).pending
    ensures id in Play(Init(maxBytes), events).subs
  {
    InitInv(maxBytes);
    PlayKeepsInv(Init(maxBytes), events);
  }

  /** The window is real: subscribe, commit, cancel, send. */
  lemma {:induction false} WindowIsReachable()
    ensures exists events: seq<Event> :: Play(Init(1), events).panicked
  {
    var e1 := [Subscribe(0, 0)];
    var e2 := e1 + [Commit(Offer(Stdout, [1]))];
    var e3 := e2 + [Cancel(0)];
    var e4 := e3 + [Send(0)];
    assert e1[..0] == [] && e2[..1] == e1 && e3[..2] == e2 && e4[..3] == e3;
    var s1 := Play(Init(1), e1);
    assert s1 == Next(Init(1), Subscribe(0, 0));
    var s2 := Play(Init(1), e2);
    assert s2 == Next(s1, Commit(Offer(Stdout, [1])));
    assert 0 in s2.pending;
    var s3 := Play(Init(1), e3);
    assert s3 == Next(s2, Cancel(0));
    assert Play(Init(1), e4) == Next(s3, Send(0));
  }

  // ---------------------------------------------------------------- a producer left undisturbed

  function AttemptAll(s: State): State {
    s.(subs := map id | id in s.subs :: if id in s.pending then Attempt(s.subs[id], s.sending) else s.subs[id],
       pending := {})
  }

  lemma {:induction false} PlayConcat(s: State, a: seq<Event>, b: seq<Event>)
    ensures Play(s, a + b) == Play(Play(s, a), b)
    decreases |b|
  {
    if b == [] {
      assert a + b == a;
    } else {
      assert (a + b)[..|a + b| - 1] == a + b[..|b| - 1];
      PlayConcat(s, a, b[..|b| - 1]);
    }
  }

  lemma {:induction false} SendsAreAttempts(s: State, order: seq<SubId>)
    requires !s.panicked && s.pending <= s.subs.Keys && forall id | id in s.pending :: s.subs[id].registered
    requires |order| == |s.pending| && (forall id :: id in order <==> id in s.pending)
    ensures Play(s, seq(|order|, i requires 0 <= i < |order| => Send(order[i]))) == AttemptAll(s)
    decreases |order|
  {
    var sends := seq(|order|, i requires 0 <= i < |order| => Send(order[i]));
    if order == [] {
      assert s.pending == {};
      assert AttemptAll(s).subs == s.subs;
    } else {
      var id, rest := order[0], order[1..];
      var t := Next(s, Send(id));
      OrderTail(order, s.pending);
      SendsAreAttempts(t, rest);
      assert AttemptAll(t).subs == AttemptAll(s).subs;
      var later := seq(|rest|, i requires 0 <= i < |rest| => Send(rest[i]));
      assert sends == [Send(id)] + later;
      PlayConcat(s, [Send(id)], later);
      assert [Send(id)][..0] == [];
      assert Play(s, [Send(id)]) == t;
    }
  }

  /** `t` is `s` once its chunk has been offered to every channel of the snapshot, and nothing else was done. */
  ghost predicate AllOffered(s: State, t: State) {
    && t.log == s.log && t.sending == s.sending && t.panicked == s.panicked && t.pending == {}
    && t.subs.Keys == s.subs.Keys
    && (forall id | id in s.subs && id !in s.pending :: t.subs[id] == s.subs[id])
    && (forall id | id in s.pending && id in s.subs ::
          && t.subs[id].buffer == Offered(s.subs[id].buffer, SUBSCRIBER_SLOTS, s.sending)
          && t.subs[id].received == s.subs[id].received && t.subs[id].registered == s.subs[id].registered
          && (s.sending.seqNo in t.subs[id].missed <==>
                s.sending.seqNo in s.subs[id].missed || |s.subs[id].buffer| >= 64))
  }

  /**
   When no other actor gets in between, the sends of a producer, in any order, amount to one offer to
   every channel of its snapshot: the atomic `Append` and `Finish` of the record class.
   */
  lemma {:induction false} UndisturbedSends(s: State, order: seq<SubId>)
    requires !s.panicked && s.pending <= s.subs.Keys && forall id | id in s.pending :: s.subs[id].registered
    requires |order| == |s.pending| && (forall id :: id in order <==> id in s.pending)
    ensures AllOffered(s, Play(s, seq(|order|, i requires 0 <= i < |order| => Send(order[i]))))
  {
    hide Play;
    SendsAreAttempts(s, order);
  }

  lemma {:induction false} OrderTail(order: seq<SubId>, ids: set<SubId>)
    requires order != [] && |order| == |ids| && forall id :: id in order <==> id in ids
    ensures |order[1..]| == |ids - {order[0]}|
    ensures forall id :: id in order[1..] <==> id in ids - {order[0]}
  {
    var id, rest := order[0], order[1..];
    forall k | k in ids - {id} ensures k in rest {
      assert k in order;
    }
    if id in rest {
      EnoughPlaces(rest, ids);
    }
  }

  lemma {:induction false} EnoughPlaces(order: seq<SubId>, ids: set<SubId>)
    requires forall id | id in ids :: id in order
    ensures |ids| <= |order|
    decreases |order|
  {
    if order != [] {
      var rest := ids - {order[0]};
      forall id | id in rest ensures id in order[1..] {
        assert id in order;
      }
      EnoughPlaces(order[1..], rest);
      assert ids <= rest + {order[0]};
      assert |ids| <= |rest| + 1;
    } else {
      assert ids == {};
    }
  }

  // ---------------------------------------------------------------- a gap in a live stream

  lemma {:induction false} PlaySnoc(s: State, events: seq<Event>, e: Event)
    ensures Play(s, events + [e]) ==
            if Enabled(Play(s, events), e) then Next(Play(s, events), e) else Play(s, events)
  {
    assert (events + [e])[..|events|] == events;
  }

  lemma {:induction false} ReachableStep(s: State, e: Event)
    requires Reachable(s) && Enabled(s, e)
    ensures Reachable(Next(s, e))
  {
    var maxBytes: int, events: seq<Event> :| s == Play(Init(maxBytes), events);
    PlaySnoc(Init(maxBytes), events, e);
    assert Next(s, e) == Play(Init(maxBytes), events + [e]);
  }

  ghost predicate Unwatched(s: State, n: nat) {
    && Reachable(s) && !s.panicked && s.pending == {} && s.subs == map[] && s.log.status == Running
    && |s.log.chunks| == n == s.log.outputBytes && s.log.maxBytes == MAX_OUTPUT_BYTES_HARD
  }

  lemma {:induction false} FillLog(n: nat) returns (s: State)
    requires n <= MAX_OUTPUT_BYTES_HARD
    ensures Unwatched(s, n)
  {
    if n == 0 {
      s := Init(0);
      assert s == Play(Init(0), []);
    } else {
      var t := FillLog(n - 1);
      assert Registered(t) == {};
      ReachableStep(t, Commit(Offer(Stdout, [0])));
      s := Next(t, Commit(Offer(Stdout, [0])));
    }
  }

  lemma {:induction false} SubscribeLate(s: State, n: nat) returns (t: State)
    requires Unwatched(s, n) && n == SUBSCRIBER_SLOTS + 1
    ensures Reachable(t) && t == Next(s, Subscribe(0, 0))
    ensures t.subs[0].missed == {64} && |t.subs[0].buffer| == 64
  {
    ReachableInv(s);
    ReachableStep(s, Subscribe(0, 0));
    t := Next(s, Subscribe(0, 0));
    ReplayIsSlice(s.log.chunks, 0);
    ReplayMissedIs(s.log.chunks, 0);
  }

  lemma {:induction false} SlowSubscriber() returns (s: State)
    ensures Reachable(s) && !s.panicked && s.pending == {} && s.log.status == Running
    ensures s.log.outputBytes < s.log.maxBytes && |s.log.chunks| == 65
    ensures s.subs.Keys == {0} && s.subs[0].registered && s.subs[0].missed == {64}
    ensures |s.subs[0].buffer| == 63 && s.subs[0].received != []
  {
    hide Reachable;
    var s0 := FillLog(65);
    var s1 := SubscribeLate(s0, 65);
    ReachableStep(s1, Receive(0));
    s := Next(s1, Receive(0));
  }

  /**
   A chunk dropped while the exec runs can be followed by a delivered one, so reconnecting with the last
   sequence number seen would skip it: 65 chunks replayed into 64 slots, one received, the 66th sent live.
   */
  lemma {:induction false} LiveGapIsReachable()
    ensures exists s: State :: Reachable(s) && 0 in s.subs && s.subs[0].registered
              && s.subs[0].missed == {64} && Seen(s.subs[0]) != []
              && Seen(s.subs[0])[|Seen(s.subs[0])| - 1].seqNo == 65
  {
    var s := SlowSubscriber();
    var e := Commit(Offer(Stdout, [0]));
    ReachableInv(s);
    ReachableStep(s, e);
    var t := Next(s, e);
    assert 0 in t.pending && t.sending.seqNo == 65;
    ReachableStep(t, Send(0));
    var u := Next(t, Send(0));
    assert u.subs[0].buffer == s.subs[0].buffer + [t.sending];
  }
}
