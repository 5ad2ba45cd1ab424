/** Reading an exec's log over event-stream connections, as many as it takes. */
module SseSession {
  import opened ExecTypes
  import opened ExecLog
  import opened ExecRecords
  import opened Decimal
  import opened EventStream
  import opened SseWire

  // ---------------------------------------------------------------- the server's event loop

  function Beats(n: nat): seq<Item> {
    if n == 0 then [] else Beats(n - 1) + [Heartbeat]
  }

  function FirstBeats(beats: seq<nat>): nat {
    if beats == [] then 0 else beats[0]
  }

  function LaterBeats(beats: seq<nat>): seq<nat> {
    if beats == [] then [] else beats[1..]
  }

  /** A channel's buffer after these sends to it. */
  function Fed(queue: seq<Chunk>, offered: seq<Chunk>): seq<Chunk> {
    if offered == [] then queue
    else Offered(Fed(queue, offered[..|offered| - 1]), SUBSCRIBER_SLOTS, offered[|offered| - 1])
  }

  function FirstFeed(feed: seq<seq<Chunk>>): seq<Chunk> {
    if feed == [] then [] else feed[0]
  }

  function LaterFeed(feed: seq<seq<Chunk>>): seq<seq<Chunk>> {
    if feed == [] then [] else feed[1..]
  }

  /**
   What the event loop writes for a channel holding `queue`. Before its receive `i`, `beats[i]` heartbeats
   tick and the producer sends `feed[i]`. It stops after Done, or when the channel is empty for good: it
   was closed, or the client has gone.
   */
  function LoopItems(queue: seq<Chunk>, feed: seq<seq<Chunk>>, beats: seq<nat>): seq<Item>
    decreases |feed|, |queue|
  {
    var q := Fed(queue, FirstFeed(feed));
    Beats(FirstBeats(beats)) +
    if q == [] then
      if feed == [] then [] else LoopItems([], feed[1..], LaterBeats(beats))
    else
      [Write(q[0])] + if q[0].kind == Done then [] else LoopItems(q[1..], LaterFeed(feed), LaterBeats(beats))
  }

  lemma {:induction false} TextConcat(a: seq<Item>, b: seq<Item>)
    ensures Text(a + b) == Text(a) + Text(b)
    decreases |a|
  {
    hide ItemText;
    if a == [] {
      assert a + b == b;
    } else {
      assert (a + b)[1..] == a[1..] + b;
      TextConcat(a[1..], b);
    }
  }

  lemma {:induction false} TextOne(item: Item)
    ensures Text([item]) == ItemText(item)
  {
    hide ItemText;
    assert [item][1..] == [];
  }

  method WriteHeartbeats(n: nat) returns (wire: string)
    ensures wire == Text(Beats(n))
  {
    hide ItemText;
    wire := "";
    for i := 0 to n
      invariant wire == Text(Beats(i))
    {
      wire := wire + ItemText(Heartbeat);
      TextConcat(Beats(i), [Heartbeat]);
      TextOne(Heartbeat);
    }
  }

  /** The rest of the text once this turn's heartbeats are out and the buffer holds `q`. */
  ghost function AfterBeats(q: seq<Chunk>, feed: seq<seq<Chunk>>, beats: seq<nat>): string {
    if q == [] then
      if feed == [] then "" else Text(LoopItems([], feed[1..], LaterBeats(beats)))
    else
      EventText(q[0]) +
      if q[0].kind == Done then "" else Text(LoopItems(q[1..], LaterFeed(feed), LaterBeats(beats)))
  }

  lemma {:induction false} LoopText(queue: seq<Chunk>, feed: seq<seq<Chunk>>, beats: seq<nat>)
    ensures Text(LoopItems(queue, feed, beats)) ==
            Text(Beats(FirstBeats(beats))) + AfterBeats(Fed(queue, FirstFeed(feed)), feed, beats)
  {
    hide EventText;
    hide Fed;
    hide Beats;
    var b, q := Beats(FirstBeats(beats)), Fed(queue, FirstFeed(feed));
    if q == [] {
      var tail := if feed == [] then [] else LoopItems([], feed[1..], LaterBeats(beats));
      assert LoopItems(queue, feed, beats) == b + tail;
      TextConcat(b, tail);
    } else {
      var tail := if q[0].kind == Done then [] else LoopItems(q[1..], LaterFeed(feed), LaterBeats(beats));
      assert LoopItems(queue, feed, beats) == b + ([Write(q[0])] + tail);
      TextConcat(b, [Write(q[0])] + tail);
      TextConcat([Write(q[0])], tail);
      TextOne(Write(q[0]));
    }
  }

  /** The producer's sends between two receives. */
  method Feed(ch: Channel, offered: seq<Chunk>)
    requires ch.closed ==> offered == []
    modifies ch`buffer
    ensures ch.buffer == Fed(old(ch.buffer), offered)
  {
    for i := 0 to |offered|
      invariant ch.buffer == Fed(old(ch.buffer), offered[..i])
    {
      assert offered[..i + 1][..i] == offered[..i];
      ch.TrySend(offered[i]);
    }
    assert offered[..|offered|] == offered;
  }

  /** What the loop has still to write. */
  ghost function Rest(queue: seq<Chunk>, feed: seq<seq<Chunk>>, beats: seq<nat>): string {
    Text(LoopItems(queue, feed, beats))
  }

  /** A turn that receives nothing. */
  lemma {:induction false} QuietTurn(wire: string, queue: seq<Chunk>, feed: seq<seq<Chunk>>, beats: seq<nat>)
    requires Fed(queue, FirstFeed(feed)) == []
    ensures wire + Rest(queue, feed, beats) ==
            wire + Text(Beats(FirstBeats(beats))) + if feed == [] then "" else Rest([], feed[1..], LaterBeats(beats))
  {
    hide LoopItems;
    hide Text;
    hide Beats;
    LoopText(queue, feed, beats);
  }

  /** A turn that receives the oldest chunk. */
  lemma {:induction false} WritingTurn(wire: string, queue: seq<Chunk>, feed: seq<seq<Chunk>>, beats: seq<nat>)
    requires Fed(queue, FirstFeed(feed)) != []
    ensures var q := Fed(queue, FirstFeed(feed));
            wire + Rest(queue, feed, beats) ==
            wire + Text(Beats(FirstBeats(beats))) + EventText(q[0]) +
            if q[0].kind == Done then "" else Rest(q[1..], LaterFeed(feed), LaterBeats(beats))
  {
    hide LoopItems;
    hide Text;
    hide Beats;
    hide Fed;
    hide EventText;
    LoopText(queue, feed, beats);
  }

  /** The event loop; nothing is sent on a channel that was closed. */
  method EventLoop(ch: Channel, feed: seq<seq<Chunk>>, beats: seq<nat>) returns (wire: string)
    requires ch.closed ==> feed == []
    modifies ch`buffer
    ensures wire == Text(LoopItems(old(ch.buffer), feed, beats))
  {
    hide EventText;
    hide Rest;
    hide Beats;
    hide Text;
    hide Fed;
    wire := "";
    ghost var all := Rest(ch.buffer, feed, beats);
    assert all == Text(LoopItems(old(ch.buffer), feed, beats)) by { RestIs(ch.buffer, feed, beats); }
    hide LoopItems;
    var coming, todo := feed, beats;
    while true
      invariant ch.closed ==> coming == []
      invariant wire + Rest(ch.buffer, coming, todo) == all
      decreases |coming|, |ch.buffer|
    {
      FedNothing(ch.buffer);
      if Fed(ch.buffer, FirstFeed(coming)) == [] {
        QuietTurn(wire, ch.buffer, coming, todo);
      } else {
        WritingTurn(wire, ch.buffer, coming, todo);
      }
      var quiet := WriteHeartbeats(FirstBeats(todo));
      wire := wire + quiet;
      Feed(ch, FirstFeed(coming));
      if ch.buffer == [] && !ch.closed {
        if coming == [] {
          return;
        }
        coming, todo := coming[1..], LaterBeats(todo);
        continue;
      }
      var c := ch.Receive();
      if c.None? {
        return;
      }
      wire := wire + EventText(c.value);
      if c.value.kind == Done {
        return;
      }
      coming, todo := LaterFeed(coming), LaterBeats(todo);
    }
  }

  lemma {:induction false} RestIs(queue: seq<Chunk>, feed: seq<seq<Chunk>>, beats: seq<nat>)
    ensures Rest(queue, feed, beats) == Text(LoopItems(queue, feed, beats))
  {
  }

  lemma {:induction false} FedNothing(queue: seq<Chunk>)
    ensures Fed(queue, []) == queue
  {
  }

  /**
   One connection: subscribe from the header's position, write until the end, cancel. While the exec runs
   `feed` is what its producer sends to this channel meanwhile; the channel of a finished exec gets nothing.
   */
  method GetOutputStream(rec: ExecRecord, lastEventID: string, feed: seq<seq<Chunk>>, beats: seq<nat>)
      returns (wire: string)
    requires rec.Valid() && (rec.status != Running ==> feed == [])
    modifies rec`subscribers
    ensures rec.Valid() && rec.subscribers == old(rec.subscribers)
    ensures wire == Text(LoopItems(Replay(rec.chunks, ResumeFrom(lastEventID)), feed, beats))
  {
    hide Text;
    hide LoopItems;
    var ch := rec.Subscribe(ResumeFrom(lastEventID));
    wire := EventLoop(ch, feed, beats);
    rec.Cancel(ch);
  }

  /** The part of a sequence of chunks that the event loop delivers. */
  function UpToDone(chunks: seq<Chunk>): seq<Chunk> {
    if chunks == [] then []
    else [chunks[0]] + if chunks[0].kind == Done then [] else UpToDone(chunks[1..])
  }

  lemma {:induction false} ChunksOfConcat(a: seq<Item>, b: seq<Item>)
    ensures ChunksOf(a + b) == ChunksOf(a) + ChunksOf(b)
    decreases |a|
  {
    if a == [] {
      assert a + b == b;
    } else {
      assert (a + b)[1..] == a[1..] + b && (a + b)[0] == a[0];
      ChunksOfConcat(a[1..], b);
      var first := match a[0] case Write(c) => [c] case Heartbeat => [];
      assert first + (ChunksOf(a[1..]) + ChunksOf(b)) == first + ChunksOf(a[1..]) + ChunksOf(b);
    }
  }

  lemma {:induction false} BeatsCarryNothing(n: nat)
    ensures ChunksOf(Beats(n)) == []
  {
    if n > 0 {
      BeatsCarryNothing(n - 1);
      ChunksOfConcat(Beats(n - 1), [Heartbeat]);
      assert [Heartbeat][1..] == [];
    }
  }

  function Flat(feed: seq<seq<Chunk>>): seq<Chunk> {
    if feed == [] then [] else feed[0] + Flat(feed[1..])
  }

  /** The loop receives fast enough for every send to find a free slot. */
  ghost predicate KeepsUp(queue: seq<Chunk>, feed: seq<seq<Chunk>>)
    decreases |feed|
  {
    feed != [] ==>
      var q := queue + feed[0];
      |q| <= SUBSCRIBER_SLOTS && KeepsUp(if q == [] then [] else q[1..], feed[1..])
  }

  lemma {:induction false} FlatNothing()
    ensures Flat([]) == []
  {
  }

  lemma {:induction false} FedFits(queue: seq<Chunk>, offered: seq<Chunk>)
    requires |queue| + |offered| <= SUBSCRIBER_SLOTS
    ensures Fed(queue, offered) == queue + offered
    decreases |offered|
  {
    if offered != [] {
      FedFits(queue, offered[..|offered| - 1]);
    }
  }

  lemma {:induction false} BeatsThen(n: nat, items: seq<Item>)
    ensures ChunksOf(Beats(n) + items) == ChunksOf(items)
  {
    hide Beats;
    BeatsCarryNothing(n);
    ChunksOfConcat(Beats(n), items);
  }

  lemma {:induction false} LoopChunks(queue: seq<Chunk>, feed: seq<seq<Chunk>>, beats: seq<nat>)
    ensures var q := Fed(queue, FirstFeed(feed));
            ChunksOf(LoopItems(queue, feed, beats)) ==
            if q == [] then
              if feed == [] then [] else ChunksOf(LoopItems([], feed[1..], LaterBeats(beats)))
            else
              [q[0]] + if q[0].kind == Done then [] else ChunksOf(LoopItems(q[1..], LaterFeed(feed), LaterBeats(beats)))
  {
    hide Beats;
    hide Fed;
    var n, q := FirstBeats(beats), Fed(queue, FirstFeed(feed));
    if q == [] {
      var tail := if feed == [] then [] else LoopItems([], feed[1..], LaterBeats(beats));
      assert LoopItems(queue, feed, beats) == Beats(n) + tail;
      BeatsThen(n, tail);
    } else {
      var tail := if q[0].kind == Done then [] else LoopItems(q[1..], LaterFeed(feed), LaterBeats(beats));
      assert LoopItems(queue, feed, beats) == Beats(n) + ([Write(q[0])] + tail);
      BeatsThen(n, [Write(q[0])] + tail);
      assert ([Write(q[0])] + tail)[1..] == tail;
    }
  }

  lemma {:induction false} UpToDoneHead(q: seq<Chunk>, rest: seq<Chunk>)
    requires q != []
    ensures UpToDone(q + rest) == [q[0]] + if q[0].kind == Done then [] else UpToDone(q[1..] + rest)
  {
    assert (q + rest)[1..] == q[1..] + rest;
  }

  function Tail(q: seq<Chunk>): seq<Chunk> {
    if q == [] then [] else q[1..]
  }

  /** A turn of a loop that keeps up: nothing is dropped, and it goes on keeping up. */
  lemma {:induction false} OneTurn(queue: seq<Chunk>, feed: seq<seq<Chunk>>)
    requires KeepsUp(queue, feed)
    ensures var q, later := Fed(queue, FirstFeed(feed)), LaterFeed(feed);
            && (feed == [] ==> q == queue)
            && queue + Flat(feed) == q + Flat(later)
            && KeepsUp(Tail(q), later)
  {
    if feed == [] {
      FedNothing(queue);
    } else {
      FedFits(queue, feed[0]);
      hide Fed;
      assert queue + (feed[0] + Flat(feed[1..])) == (queue + feed[0]) + Flat(feed[1..]);
    }
  }

  /** A loop that keeps up delivers the replay and then everything sent, in order, up to Done. */
  lemma {:induction false} LoopDelivers(queue: seq<Chunk>, feed: seq<seq<Chunk>>, beats: seq<nat>)
    requires KeepsUp(queue, feed)
    ensures ChunksOf(LoopItems(queue, feed, beats)) == UpToDone(queue + Flat(feed))
    decreases |feed|, |queue|
  {
    hide LoopItems;
    hide ChunksOf;
    hide UpToDone;
    hide KeepsUp;
    hide Flat;
    hide Fed;
    hide FirstFeed;
    var q, later := Fed(queue, FirstFeed(feed)), LaterFeed(feed);
    LoopChunks(queue, feed, beats);
    OneTurn(queue, feed);
    if q != [] {
      UpToDoneHead(q, Flat(later));
      if q[0].kind != Done {
        LoopDelivers(q[1..], later, LaterBeats(beats));
      }
    } else if feed != [] {
      LoopDelivers([], later, LaterBeats(beats));
    } else {
      FlatNothing();
      UpToDoneIsAll([]);
    }
  }

  lemma {:induction false} UpToDoneIsAll(chunks: seq<Chunk>)
    requires forall i :: 0 <= i < |chunks| - 1 ==> chunks[i].kind != Done
    ensures UpToDone(chunks) == chunks
    decreases |chunks|
  {
    if chunks != [] {
      UpToDoneIsAll(chunks[1..]);
    }
  }

  // ---------------------------------------------------------------- the client's side

  /** A client that keeps what it was dispatched and the source's last event ID. */
  datatype Client = Client(got: seq<Chunk>, lastId: string)

  /** What a reader's ID buffer holds when a connection opens: nothing, by the standard, or the remembered id. */
  datatype ReaderKind = Standard | Remembering

  function FirstBuffer(kind: ReaderKind, lastId: string): string {
    match kind case Standard => "" case Remembering => lastId
  }

  /** One connection as the client sees it: `k` characters of the items' text arrive, and are read and decoded. */
  function Absorb(kind: ReaderKind, c: Client, items: seq<Item>, k: nat): Client
    requires k <= |Text(items)|
  {
    var r := Read(Open(c.lastId, FirstBuffer(kind, c.lastId)), Text(items)[..k]);
    Client(c.got + DecodeAll(r.events), r.lastId)
  }

  function ArrivedChunks(items: seq<Item>, k: nat): seq<Chunk> {
    ChunksOf(items[..WholeItems(items, k)])
  }

  /** A standard reader that was past the beginning was sent a whole heartbeat and no event. */
  predicate Forgets(kind: ReaderKind, c: Client, items: seq<Item>, k: nat) {
    kind == Standard && ResumeFrom(c.lastId) != 0 && WholeItems(items, k) > 0 && ArrivedChunks(items, k) == []
  }

  lemma {:induction false} Absorbs(kind: ReaderKind, c: Client, items: seq<Item>, k: nat)
    requires k <= |Text(items)|
    requires forall i :: 0 <= i < |ChunksOf(items)| ==>
               Wireable(ChunksOf(items)[i]) && ChunksOf(items)[i].seqNo < TWO_TO_64 - 1
    ensures var t, arrived := Absorb(kind, c, items, k), ArrivedChunks(items, k);
            && arrived <= ChunksOf(items) && t.got == c.got + arrived
            && ResumeFrom(t.lastId) ==
               if arrived != [] then arrived[|arrived| - 1].seqNo + 1
               else if Forgets(kind, c, items, k) then 0 else ResumeFrom(c.lastId)
  {
    hide Text;
    hide Read;
    hide DecodeAll;
    hide Wireable;
    hide ChunksOf;
    hide WholeItems;
    hide Unsigned;
    SseRoundTrip(c.lastId, FirstBuffer(kind, c.lastId), items, k);
    ChunksOfPrefix(items, WholeItems(items, k));
    assert ResumeFrom("") == 0;
  }

  /** One connection to a finished exec: its heartbeats, and after how many characters it broke, if it did. */
  datatype Visit = Visit(beats: seq<nat>, cut: Option<nat>)

  function ItemsFor(log: seq<Chunk>, c: Client, v: Visit): seq<Item> {
    LoopItems(Replay(log, ResumeFrom(c.lastId)), [], v.beats)
  }

  /** Any number of characters may arrive. */
  function Arrives(cut: Option<nat>, wire: string): (k: nat)
    ensures k <= |wire|
    ensures cut.Some? && cut.value <= |wire| ==> k == cut.value
  {
    match cut case Some(k) => Min(k, |wire|) case None => |wire|
  }

  function Connect(kind: ReaderKind, log: seq<Chunk>, c: Client, v: Visit): Client {
    var items := ItemsFor(log, c, v);
    Absorb(kind, c, items, Arrives(v.cut, Text(items)))
  }

  function ConnectAll(kind: ReaderKind, log: seq<Chunk>, c: Client, visits: seq<Visit>): Client {
    if visits == [] then c
    else Connect(kind, log, ConnectAll(kind, log, c, visits[..|visits| - 1]), visits[|visits| - 1])
  }

  predicate VisitForgets(kind: ReaderKind, log: seq<Chunk>, c: Client, v: Visit) {
    var items := ItemsFor(log, c, v);
    Forgets(kind, c, items, Arrives(v.cut, Text(items)))
  }

  /** No visit that found the client past the beginning brought it a whole heartbeat and no event. */
  ghost predicate NeverForgets(kind: ReaderKind, log: seq<Chunk>, c: Client, visits: seq<Visit>) {
    forall i :: 0 <= i < |visits| ==> !VisitForgets(kind, log, ConnectAll(kind, log, c, visits[..i]), visits[i])
  }

  ghost predicate Unbroken(visits: seq<Visit>) {
    forall i :: 0 <= i < |visits| ==> visits[i].cut == None
  }

  /** The log of a finished exec whose Done came last. */
  ghost predicate FinishedLog(log: seq<Chunk>) {
    && Numbered(log) && log != [] && OnlyDoneAt(log, |log| - 1) && |log| < TWO_TO_64
    && forall i :: 0 <= i < |log| ==> Canonical(log[i])
  }

  /** The client holds the log from `base` up to where it will resume. */
  ghost predicate InStep(log: seq<Chunk>, base: nat, c: Client) {
    && base + |c.got| <= |log|
    && c.got == log[base..base + |c.got|]
    && ResumeFrom(c.lastId) == base + |c.got|
  }

  lemma {:induction false} BatchOf(log: seq<Chunk>, c: Client, v: Visit)
    requires FinishedLog(log)
    ensures var from := ResumeFrom(c.lastId);
            var batch := log[Min(from, |log|)..Min(from + SUBSCRIBER_SLOTS, |log|)];
            && ChunksOf(ItemsFor(log, c, v)) == batch
            && forall i :: 0 <= i < |batch| ==>
                 Wireable(batch[i]) && batch[i].seqNo == from + i && batch[i].seqNo < TWO_TO_64 - 1
  {
    hide LoopItems;
    hide UpToDone;
    hide ResumeFrom;
    hide ChunksOf;
    var from := ResumeFrom(c.lastId);
    var batch := log[Min(from, |log|)..Min(from + SUBSCRIBER_SLOTS, |log|)];
    ReplayIsSlice(log, from);
    assert Replay(log, from) == batch;
    LoopDelivers(batch, [], v.beats);
    assert batch + Flat([]) == batch;
    UpToDoneIsAll(batch);
  }

  /** A connection brings the next `n` entries, all of up to 64 if it does not break. */
  lemma {:induction false} ConnectBrings(kind: ReaderKind, log: seq<Chunk>, c: Client, v: Visit) returns (n: nat)
    requires FinishedLog(log)
    ensures var from, t := ResumeFrom(c.lastId), Connect(kind, log, c, v);
            var start := Min(from, |log|);
            && n <= Min(SUBSCRIBER_SLOTS, |log| - start)
            && t.got == c.got + log[start..start + n]
            && (VisitForgets(kind, log, c, v) ==> n == 0 && from != 0)
            && ResumeFrom(t.lastId) == (if VisitForgets(kind, log, c, v) then 0 else from + n)
            && (v.cut == None ==> n == Min(SUBSCRIBER_SLOTS, |log| - start))
  {
    hide Text;
    hide Absorb;
    hide Wireable;
    hide ResumeFrom;
    hide ChunksOf;
    hide WholeItems;
    hide ItemsFor;
    var items := ItemsFor(log, c, v);
    BatchOf(log, c, v);
    hide FinishedLog;
    var k := Arrives(v.cut, Text(items));
    Absorbs(kind, c, items, k);
    n := |ArrivedChunks(items, k)|;
    var start := Min(ResumeFrom(c.lastId), |log|);
    assert ArrivedChunks(items, k) == ChunksOf(items)[..n] == log[start..start + n];
    if v.cut == None {
      WholeTextArrives(items);
      assert items[..|items|] == items;
    }
  }

  /** The client is ahead of its position: it will be sent again what it has, or has it twice already. */
  ghost predicate OutOfStep(log: seq<Chunk>, base: nat, c: Client) {
    ResumeFrom(c.lastId) < base + |c.got| && ResumeFrom(c.lastId) <= |log|
  }

  /**
   A connection that does not make the client forget its position makes it neither lose, repeat nor reorder
   a chunk, wherever it breaks; unbroken it brings the next 64 entries, or all that are left. One that does
   puts the client out of step, and nothing later brings it back.
   */
  lemma {:induction false} ConnectKeepsInStep(kind: ReaderKind, log: seq<Chunk>, base: nat, c: Client, v: Visit)
    requires FinishedLog(log) && (InStep(log, base, c) || OutOfStep(log, base, c))
    ensures var t := Connect(kind, log, c, v);
            && c.got <= t.got
            && (InStep(log, base, c) && !VisitForgets(kind, log, c, v) ==> InStep(log, base, t))
            && (InStep(log, base, c) && VisitForgets(kind, log, c, v) ==> OutOfStep(log, base, t))
            && (OutOfStep(log, base, c) ==> OutOfStep(log, base, t))
            && (InStep(log, base, c) && v.cut == None ==>
                  base + |t.got| == Min(base + |c.got| + SUBSCRIBER_SLOTS, |log|))
  {
    hide Connect;
    hide VisitForgets;
    hide FinishedLog;
    hide ResumeFrom;
    var from := ResumeFrom(c.lastId);
    var n := ConnectBrings(kind, log, c, v);
    if InStep(log, base, c) {
      assert log[base..from] + log[from..from + n] == log[base..from + n];
    }
  }

  lemma {:induction false} NeverForgetsFront(kind: ReaderKind, log: seq<Chunk>, c: Client, visits: seq<Visit>)
    requires visits != []
    ensures var front := visits[..|visits| - 1];
            NeverForgets(kind, log, c, visits) <==>
            NeverForgets(kind, log, c, front) &&
            !VisitForgets(kind, log, ConnectAll(kind, log, c, front), visits[|visits| - 1])
  {
    hide VisitForgets;
    hide ConnectAll;
    var front := visits[..|visits| - 1];
    assert forall i :: 0 <= i < |front| ==> front[..i] == visits[..i] && front[i] == visits[i];
    if NeverForgets(kind, log, c, visits) {
      assert !VisitForgets(kind, log, ConnectAll(kind, log, c, visits[..|front|]), visits[|front|]);
    }
  }

  lemma {:induction false} InOrOutOfStep(kind: ReaderKind, log: seq<Chunk>, base: nat, c: Client, visits: seq<Visit>)
    requires FinishedLog(log) && InStep(log, base, c)
    ensures var t := ConnectAll(kind, log, c, visits);
            if NeverForgets(kind, log, c, visits) then InStep(log, base, t) else OutOfStep(log, base, t)
    decreases |visits|
  {
    hide FinishedLog;
    hide InStep;
    hide OutOfStep;
    hide NeverForgets;
    if visits == [] {
      assert NeverForgets(kind, log, c, visits) by { NeverNothing(kind, log, c); }
    } else {
      var front := visits[..|visits| - 1];
      InOrOutOfStep(kind, log, base, c, front);
      NeverForgetsFront(kind, log, c, visits);
      ConnectKeepsInStep(kind, log, base, ConnectAll(kind, log, c, front), visits[|visits| - 1]);
    }
  }

  lemma {:induction false} NeverNothing(kind: ReaderKind, log: seq<Chunk>, c: Client)
    ensures NeverForgets(kind, log, c, [])
  {
  }

  /**
   Over any connections to one log, broken anywhere, with heartbeats anywhere, the client holds exactly the
   log from its base to its position if and only if no visit made it forget where it was. A reader whose ID
   buffer starts at the remembered id never forgets; one that follows the standard may.
   */
  lemma {:induction false} NothingLostOrRepeatedIff(kind: ReaderKind, log: seq<Chunk>, base: nat, c: Client,
                                                    visits: seq<Visit>)
    requires FinishedLog(log) && InStep(log, base, c)
    ensures InStep(log, base, ConnectAll(kind, log, c, visits)) <==> NeverForgets(kind, log, c, visits)
  {
    hide FinishedLog;
    hide ConnectAll;
    InOrOutOfStep(kind, log, base, c, visits);
  }

  lemma {:induction false} RememberingNeverForgets(log: seq<Chunk>, c: Client, visits: seq<Visit>)
    ensures NeverForgets(Remembering, log, c, visits)
  {
  }

  lemma {:induction false} UnbrokenProgress(kind: ReaderKind, log: seq<Chunk>, base: nat, c: Client,
                                            visits: seq<Visit>)
    requires FinishedLog(log) && InStep(log, base, c) && Unbroken(visits) && NeverForgets(kind, log, c, visits)
    ensures base + |ConnectAll(kind, log, c, visits).got| ==
            Min(base + |c.got| + SUBSCRIBER_SLOTS * |visits|, |log|)
    decreases |visits|
  {
    hide FinishedLog;
    hide Connect;
    assert base + |c.got| <= |log|;
    if visits != [] {
      var front := visits[..|visits| - 1];
      NeverForgetsFront(kind, log, c, visits);
      hide NeverForgets;
      UnbrokenProgress(kind, log, base, c, front);
      InOrOutOfStep(kind, log, base, c, front);
      hide InStep;
      hide OutOfStep;
      ConnectKeepsInStep(kind, log, base, ConnectAll(kind, log, c, front), visits[|visits| - 1]);
    }
  }

  function Rounds(log: seq<Chunk>, base: nat): int {
    (|log| - base + SUBSCRIBER_SLOTS - 1) / SUBSCRIBER_SLOTS
  }

  /**
   Resuming from one finished log is complete: from position `base`, unbroken connections that do not make
   the client forget rebuild the rest of it, ending in Done, exactly when there are at least
   ceil((n - base) / 64) of them.
   */
  lemma {:induction false} RebuiltIffEnoughRounds(kind: ReaderKind, log: seq<Chunk>, base: nat, lastId: string,
                                                  visits: seq<Visit>)
    requires FinishedLog(log) && base <= |log| && ResumeFrom(lastId) == base && Unbroken(visits)
    requires NeverForgets(kind, log, Client([], lastId), visits)
    ensures ConnectAll(kind, log, Client([], lastId), visits).got == log[base..] <==> |visits| >= Rounds(log, base)
  {
    hide FinishedLog;
    hide ConnectAll;
    hide ResumeFrom;
    hide NeverForgets;
    var c := Client([], lastId);
    UnbrokenProgress(kind, log, base, c, visits);
    InOrOutOfStep(kind, log, base, c, visits);
    var got := ConnectAll(kind, log, c, visits).got;
    if |got| == |log| - base {
      assert got == log[base..];
    }
  }

  /** Unbroken connections make no reader forget before it has the whole log. */
  lemma {:induction false} NothingForgottenOnTheWay(kind: ReaderKind, log: seq<Chunk>, base: nat, lastId: string,
                                                    visits: seq<Visit>)
    requires FinishedLog(log) && base <= |log| && ResumeFrom(lastId) == base && Unbroken(visits)
    requires |visits| <= Rounds(log, base)
    ensures NeverForgets(kind, log, Client([], lastId), visits)
    decreases |visits|
  {
    hide FinishedLog;
    hide ConnectAll;
    hide Connect;
    hide VisitForgets;
    hide ResumeFrom;
    hide NeverForgets;
    var c := Client([], lastId);
    if visits == [] {
      NeverNothing(kind, log, c);
    } else {
      var front := visits[..|visits| - 1];
      NothingForgottenOnTheWay(kind, log, base, lastId, front);
      UnbrokenProgress(kind, log, base, c, front);
      InOrOutOfStep(kind, log, base, c, front);
      var n := ConnectBrings(kind, log, ConnectAll(kind, log, c, front), visits[|visits| - 1]);
      NeverForgetsFront(kind, log, c, visits);
    }
  }

  /** What a client already has does not affect what it is sent. */
  lemma {:induction false} GotIsAppended(kind: ReaderKind, log: seq<Chunk>, c: Client, visits: seq<Visit>)
    ensures var t, u := ConnectAll(kind, log, c, visits), ConnectAll(kind, log, Client([], c.lastId), visits);
            t.got == c.got + u.got && t.lastId == u.lastId
    decreases |visits|
  {
    hide LoopItems;
    hide Text;
    hide Read;
    hide DecodeAll;
    if visits != [] {
      GotIsAppended(kind, log, c, visits[..|visits| - 1]);
    }
  }

  lemma {:induction false} ForgettingIgnoresGot(kind: ReaderKind, log: seq<Chunk>, c: Client, visits: seq<Visit>)
    ensures NeverForgets(kind, log, c, visits) <==> NeverForgets(kind, log, Client([], c.lastId), visits)
  {
    hide LoopItems;
    hide Text;
    hide WholeItems;
    hide ConnectAll;
    forall i | 0 <= i < |visits|
      ensures VisitForgets(kind, log, ConnectAll(kind, log, c, visits[..i]), visits[i]) <==>
              VisitForgets(kind, log, ConnectAll(kind, log, Client([], c.lastId), visits[..i]), visits[i])
    {
      GotIsAppended(kind, log, c, visits[..i]);
    }
  }

  /** A client that resumes at or beyond the end of a log is sent nothing, however often it reconnects. */
  lemma {:induction false} BeyondTheEnd(kind: ReaderKind, log: seq<Chunk>, c: Client, visits: seq<Visit>)
    requires FinishedLog(log) && ResumeFrom(c.lastId) >= |log| && NeverForgets(kind, log, c, visits)
    ensures var t := ConnectAll(kind, log, c, visits);
            t.got == c.got && ResumeFrom(t.lastId) == ResumeFrom(c.lastId)
    decreases |visits|
  {
    hide FinishedLog;
    hide Connect;
    hide VisitForgets;
    hide ResumeFrom;
    if visits != [] {
      var front := visits[..|visits| - 1];
      NeverForgetsFront(kind, log, c, visits);
      hide NeverForgets;
      BeyondTheEnd(kind, log, c, front);
      var n := ConnectBrings(kind, log, ConnectAll(kind, log, c, front), visits[|visits| - 1]);
      assert n == 0;
    }
  }

  /** A first connection sends no header and starts at 0. */
  lemma {:induction false} FirstConnectionInStep(log: seq<Chunk>)
    ensures InStep(log, 0, Client([], ""))
  {
  }
}
