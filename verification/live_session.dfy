/** A client that connects while the exec runs, and goes on once it has finished. */
module LiveSession {
  import opened ExecTypes
  import opened ExecLog
  import opened Decimal
  import opened SseWire
  import opened SseSession
  import opened Fanout

  /**
   One connection to a running exec: at which event of the run it subscribed, the subscription, what the
   event loop wrote for what that received, heartbeats included, and how many characters of it arrived.
   */
  datatype LiveVisit = LiveVisit(at: nat, sub: SubId, items: seq<Item>, arrived: nat)

  function At(maxBytes: int, events: seq<Event>, n: nat): State
    requires n <= |events|
  {
    Play(Init(maxBytes), events[..n])
  }

  /** What the loop wrote, or as much of it as it came to, is what the subscription had received by then. */
  ghost predicate Wrote(s: State, v: LiveVisit) {
    v.sub in s.subs && ChunksOf(v.items) <= s.subs[v.sub].received && v.arrived <= |Text(v.items)|
  }

  /** The connection subscribed at the client's position, and was over before event `next` of the run. */
  ghost predicate Serves(maxBytes: int, events: seq<Event>, c: Client, v: LiveVisit, next: nat) {
    && v.at < next <= |events|
    && events[v.at] == Subscribe(v.sub, ResumeFrom(c.lastId)) && Enabled(At(maxBytes, events, v.at), events[v.at])
    && Wrote(At(maxBytes, events, next), v)
  }

  /** As seen at the end of the run. */
  ghost predicate ServedIn(s: State, c: Client, v: LiveVisit) {
    && Wrote(s, v)
    && s.subs[v.sub].fromSeq == ResumeFrom(c.lastId)
    && s.subs[v.sub].fromSeq <= s.subs[v.sub].joinedAt
  }

  ghost function LiveAll(kind: ReaderKind, c: Client, visits: seq<LiveVisit>): Client {
    if visits == [] then c
    else
      var before, v := LiveAll(kind, c, visits[..|visits| - 1]), visits[|visits| - 1];
      if v.arrived <= |Text(v.items)| then Absorb(kind, before, v.items, v.arrived) else before
  }

  /** Where the client resumes after its first `j` connections. */
  ghost function Position(kind: ReaderKind, visits: seq<LiveVisit>, j: nat): nat
    requires j <= |visits|
  {
    ResumeFrom(LiveAll(kind, Client([], ""), visits[..j]).lastId)
  }

  /** The event of the run by which connection `j` was over: the client makes one at a time. */
  function Until(end: nat, visits: seq<LiveVisit>, j: nat): nat {
    if j + 1 < |visits| then visits[j + 1].at else end
  }

  /** Connection `j` was served so. */
  ghost predicate ServedOne(kind: ReaderKind, maxBytes: int, events: seq<Event>, end: nat, visits: seq<LiveVisit>, j: nat)
    requires j < |visits|
  {
    Serves(maxBytes, events, LiveAll(kind, Client([], ""), visits[..j]), visits[j], Until(end, visits, j))
  }

  /** The client's connections to one run, one after the other, all over before event `end`. */
  ghost predicate AllServed(kind: ReaderKind, maxBytes: int, events: seq<Event>, end: nat, visits: seq<LiveVisit>) {
    end <= |events| && forall j :: 0 <= j < |visits| ==> ServedOne(kind, maxBytes, events, end, visits, j)
  }

  /** No chunk below `p` was dropped for this subscriber. */
  ghost predicate MissedNoneBelow(s: State, id: SubId, p: nat) {
    id in s.subs ==> forall m | m in s.subs[id].missed :: p <= m
  }

  /** No chunk was dropped for a connection below the position the client resumed from after it. */
  ghost predicate NothingMissedBelow(kind: ReaderKind, s: State, visits: seq<LiveVisit>) {
    forall j :: 0 <= j < |visits| ==> MissedNoneBelow(s, visits[j].sub, Position(kind, visits, j + 1))
  }

  /** Connection `j` made the client forget its position: a whole heartbeat, and no event. */
  ghost predicate LiveForgets(kind: ReaderKind, visits: seq<LiveVisit>, j: nat)
    requires j < |visits|
  {
    Forgets(kind, LiveAll(kind, Client([], ""), visits[..j]), visits[j].items, visits[j].arrived)
  }

  ghost predicate NoneForgot(kind: ReaderKind, visits: seq<LiveVisit>) {
    forall j :: 0 <= j < |visits| ==> !LiveForgets(kind, visits, j)
  }

  /** The client has chunks and is at the beginning again, or has some chunk twice. */
  ghost predicate Lapsed(c: Client) {
    c.got != [] && (ResumeFrom(c.lastId) == 0 || !StrictlyIncreasing(c.got))
  }

  /** The front of what was kept, up to and with its last chunk. */
  lemma {:induction false} KeptFront(log: seq<Chunk>, a: nat, b: nat, missed: set<nat>, q: seq<Chunk>)
    requires Numbered(log) && b <= |log| && q <= Kept(log, a, b, missed) && q != []
    ensures var last := q[|q| - 1].seqNo; a <= last < b && q == Kept(log, a, last + 1, missed)
    decreases b
  {
    if q != Kept(log, a, b, missed) {
      KeptFront(log, a, b - 1, missed, q);
    } else if b - 1 in missed {
      KeptFront(log, a, b - 1, missed, q);
    }
  }

  /** What one live connection brings: the log up to a new position, if and only if nothing below that was missed. */
  lemma {:induction false} LiveBrings(kind: ReaderKind, s: State, c: Client, v: LiveVisit)
    requires Reachable(s) && FinishedLog(s.log.chunks) && ServedIn(s, c, v) && !Forgets(kind, c, v.items, v.arrived)
    requires ResumeFrom(c.lastId) <= |s.log.chunks|
    ensures var t, log := Absorb(kind, c, v.items, v.arrived), s.log.chunks;
            var from, to := ResumeFrom(c.lastId), ResumeFrom(t.lastId);
            && from <= to <= |log| && c.got <= t.got && |t.got| - |c.got| <= to - from
            && (t.got == c.got + log[from..to] <==> MissedNoneBelow(s, v.sub, to))
            && (t.got != c.got + log[from..to] ==> |t.got| - |c.got| < to - from)
  {
    hide Absorb;
    hide Forgets;
    hide ResumeFrom;
    hide ArrivedChunks;
    hide Text;
    hide Wireable;
    var log, sub, from := s.log.chunks, s.subs[v.sub], ResumeFrom(c.lastId);
    var q := ArrivedChunks(v.items, v.arrived);
    ReceivedIsKept(s, c, v);
    Absorbs(kind, c, v.items, v.arrived);
    SeesLogExceptMissed(s, v.sub);
    hide Seen;
    hide Kept;
    hide ChunksOf;
    hide Reachable;
    hide ServedIn;
    hide FinishedLog;
    if q == [] {
      assert log[from..from] == [];
    } else {
      KeptFront(log, from, sub.upto, sub.missed, q);
      SliceIff(log, from, q[|q| - 1].seqNo + 1, sub.missed);
    }
  }

  /** What a connection wrote is a front of what was kept of the log for it. */
  lemma {:induction false} ReceivedIsKept(s: State, c: Client, v: LiveVisit)
    requires Reachable(s) && FinishedLog(s.log.chunks) && ServedIn(s, c, v)
    ensures var sub, chunks := s.subs[v.sub], ChunksOf(v.items);
            && Start(sub) == ResumeFrom(c.lastId) && sub.upto <= |s.log.chunks|
            && chunks <= Kept(s.log.chunks, ResumeFrom(c.lastId), sub.upto, sub.missed)
            && forall i :: 0 <= i < |chunks| ==> Wireable(chunks[i]) && chunks[i].seqNo < TWO_TO_64 - 1
  {
    hide ResumeFrom;
    hide ChunksOf;
    hide Kept;
    hide Reachable;
    hide Text;
    var log, sub := s.log.chunks, s.subs[v.sub];
    SeesLogExceptMissed(s, v.sub);
    var kept := Kept(log, Start(sub), sub.upto, sub.missed);
    KeptFaithful(log, Start(sub), sub.upto, sub.missed);
    assert ChunksOf(v.items) <= sub.received <= Seen(sub) == kept;
    forall i | 0 <= i < |ChunksOf(v.items)|
      ensures Wireable(ChunksOf(v.items)[i]) && ChunksOf(v.items)[i].seqNo < TWO_TO_64 - 1
    {
      assert ChunksOf(v.items)[i] == kept[i] == log[kept[i].seqNo];
    }
  }

  lemma {:induction false} SliceIff(log: seq<Chunk>, a: nat, b: nat, missed: set<nat>)
    requires a <= b <= |log| && forall m | m in missed :: a <= m
    ensures var kept := Kept(log, a, b, missed);
            && |kept| <= b - a
            && (kept == log[a..b] <==> forall m | m in missed :: b <= m)
            && (kept != log[a..b] ==> |kept| < b - a)
  {
    KeptLength(log, a, b, missed);
    if forall m | m in missed :: b <= m {
      KeptWhole(log, a, b, missed);
    }
  }

  lemma {:induction false} StepKeepsSub(s: State, e: Event, id: SubId)
    requires Enabled(s, e) && id in s.subs
    ensures var t := Next(s, e);
            && id in t.subs && t.subs[id].fromSeq == s.subs[id].fromSeq && t.subs[id].joinedAt == s.subs[id].joinedAt
            && s.subs[id].received <= t.subs[id].received
  {
  }

  lemma {:induction false} StepGrowsLog(s: State, e: Event)
    requires Enabled(s, e)
    ensures s.log.chunks <= Next(s, e).log.chunks
  {
    if e.Commit? {
      StepExtends(s.log, e.op);
    }
  }

  /** A subscription's beginning does not change, and what it received and the log only grow. */
  lemma {:induction false} LaterInRun(maxBytes: int, events: seq<Event>, a: nat, b: nat, id: SubId)
    requires a <= b <= |events| && id in At(maxBytes, events, a).subs
    ensures var s, t := At(maxBytes, events, a), At(maxBytes, events, b);
            && id in t.subs && t.subs[id].fromSeq == s.subs[id].fromSeq && t.subs[id].joinedAt == s.subs[id].joinedAt
            && s.subs[id].received <= t.subs[id].received && s.log.chunks <= t.log.chunks
    decreases b
  {
    hide Next;
    hide Enabled;
    if a < b {
      LaterInRun(maxBytes, events, a, b - 1, id);
      assert events[..b][..b - 1] == events[..b - 1];
      var s := At(maxBytes, events, b - 1);
      if Enabled(s, events[b - 1]) {
        StepKeepsSub(s, events[b - 1], id);
        StepGrowsLog(s, events[b - 1]);
      }
    }
  }

  /** The connection as seen at the end of the run, for a client that resumes where the log had already got. */
  lemma {:induction false} ServedAtEnd(maxBytes: int, events: seq<Event>, c: Client, v: LiveVisit, next: nat)
    requires Serves(maxBytes, events, c, v, next)
    requires ResumeFrom(c.lastId) <= |At(maxBytes, events, v.at).log.chunks|
    ensures ServedIn(At(maxBytes, events, next), c, v) && ServedIn(At(maxBytes, events, |events|), c, v)
    ensures |At(maxBytes, events, v.at).log.chunks| <= |At(maxBytes, events, next).log.chunks|
                                                    <= |At(maxBytes, events, |events|).log.chunks|
  {
    hide ResumeFrom;
    hide ChunksOf;
    hide Text;
    var s, n := At(maxBytes, events, v.at), v.at + 1;
    assert events[..n][..v.at] == events[..v.at];
    var t := At(maxBytes, events, n);
    assert t == Next(s, events[v.at]);
    hide Next;
    hide Enabled;
    assert t.subs[v.sub].fromSeq == ResumeFrom(c.lastId) && t.subs[v.sub].joinedAt == |s.log.chunks|
           && t.log == s.log by { SubscribesAt(s, v.sub, ResumeFrom(c.lastId)); }
    hide At;
    LaterInRun(maxBytes, events, n, next, v.sub);
    LaterInRun(maxBytes, events, next, |events|, v.sub);
  }

  lemma {:induction false} SubscribesAt(s: State, id: SubId, fromSeq: nat)
    requires Enabled(s, Subscribe(id, fromSeq))
    ensures var t := Next(s, Subscribe(id, fromSeq));
            && id in t.subs && t.subs[id].fromSeq == fromSeq && t.subs[id].joinedAt == |s.log.chunks| && t.log == s.log
  {
  }

  /** Wherever a client resumes after a connection, the log had got there by the time the connection was over. */
  lemma {:induction false} PositionReached(kind: ReaderKind, s: State, c: Client, v: LiveVisit)
    requires Reachable(s) && Wrote(s, v) && ResumeFrom(c.lastId) <= |s.log.chunks|
    requires forall i :: 0 <= i < |ChunksOf(v.items)| ==>
               Wireable(ChunksOf(v.items)[i]) && ChunksOf(v.items)[i].seqNo < TWO_TO_64 - 1
    ensures var t := Absorb(kind, c, v.items, v.arrived);
            && ResumeFrom(t.lastId) <= |s.log.chunks|
            && (ResumeFrom(t.lastId) > 0 ==> t.got != [] || ResumeFrom(c.lastId) > 0)
            && c.got <= t.got
  {
    hide Absorb;
    hide Forgets;
    hide ResumeFrom;
    hide ArrivedChunks;
    hide ChunksOf;
    hide Wireable;
    hide Text;
    hide Reachable;
    Absorbs(kind, c, v.items, v.arrived);
    var q, sub := ArrivedChunks(v.items, v.arrived), s.subs[v.sub];
    if q != [] {
      DeliveredInOrder(s, v.sub);
      assert q[|q| - 1] == Seen(sub)[|q| - 1];
    }
  }

  lemma {:induction false} KeptHead(log: seq<Chunk>, a: nat, b: nat, missed: set<nat>)
    requires a < b <= |log| && a !in missed
    ensures Kept(log, a, b, missed) != [] && Kept(log, a, b, missed)[0] == log[a]
    decreases b
  {
    if a < b - 1 {
      KeptHead(log, a, b - 1, missed);
    }
  }

  /** A connection from the beginning starts with the first chunk, which no subscriber misses. */
  lemma {:induction false} StartsAtFirst(s: State, c: Client, v: LiveVisit)
    requires Reachable(s) && FinishedLog(s.log.chunks) && ServedIn(s, c, v)
    requires ResumeFrom(c.lastId) == 0 && ChunksOf(v.items) != []
    ensures ChunksOf(v.items)[0].seqNo == 0
  {
    hide ChunksOf;
    hide ResumeFrom;
    hide Text;
    hide Reachable;
    var log, sub := s.log.chunks, s.subs[v.sub];
    ReceivedIsKept(s, c, v);
    SeesLogExceptMissed(s, v.sub);
    KeptHead(log, 0, sub.upto, sub.missed);
  }

  /** A client that has forgotten its position stays lapsed: it is sent the first chunk before any other. */
  lemma {:induction false} LapseLasts(kind: ReaderKind, s: State, c: Client, v: LiveVisit)
    requires Reachable(s) && FinishedLog(s.log.chunks) && ServedIn(s, c, v)
    requires c.got != [] && (Lapsed(c) || Forgets(kind, c, v.items, v.arrived))
    ensures Lapsed(Absorb(kind, c, v.items, v.arrived))
  {
    hide Absorb;
    hide ResumeFrom;
    hide ChunksOf;
    hide Text;
    hide Reachable;
    hide Wireable;
    hide ArrivedChunks;
    ReceivedIsKept(s, c, v);
    hide ServedIn;
    hide FinishedLog;
    hide Kept;
    Absorbs(kind, c, v.items, v.arrived);
    var q, t := ArrivedChunks(v.items, v.arrived), Absorb(kind, c, v.items, v.arrived);
    if q != [] {
      if StrictlyIncreasing(c.got) {
        StartsAtFirst(s, c, v);
        assert t.got[|c.got|] == q[0] && t.got[0] == c.got[0];
      } else {
        StaysUnordered(c.got, q);
      }
    } else {
      assert c.got + q == c.got;
    }
  }

  lemma {:induction false} StaysUnordered(a: seq<Chunk>, b: seq<Chunk>)
    requires !StrictlyIncreasing(a)
    ensures !StrictlyIncreasing(a + b)
  {
    var i, j :| 0 <= i < j < |a| && a[i].seqNo >= a[j].seqNo;
    assert (a + b)[i] == a[i] && (a + b)[j] == a[j];
  }

  /** What the client holds at position `p`: the log up to it, or less when some chunk below was missed. */
  ghost predicate Holds(log: seq<Chunk>, c: Client, whole: bool) {
    var p := ResumeFrom(c.lastId);
    p <= |log| && |c.got| <= p && if whole then c.got == log[..p] else |c.got| < p
  }

  /**
   After the live connections: if none made the client forget, it is short of its position exactly when some
   chunk below was missed; if one did, it has lapsed.
   */
  lemma {:induction false} LiveHolds(kind: ReaderKind, maxBytes: int, events: seq<Event>, end: nat,
                                     visits: seq<LiveVisit>)
    requires AllServed(kind, maxBytes, events, end, visits)
    requires FinishedLog(At(maxBytes, events, |events|).log.chunks)
    ensures var c, s := LiveAll(kind, Client([], ""), visits), At(maxBytes, events, |events|);
            var log, p := s.log.chunks, ResumeFrom(c.lastId);
            && p <= |log| && p <= |At(maxBytes, events, end).log.chunks| && (p > 0 ==> c.got != [])
            && if NoneForgot(kind, visits) then Holds(log, c, NothingMissedBelow(kind, s, visits)) else Lapsed(c)
    decreases |visits|
  {
    hide Absorb;
    hide Forgets;
    hide ResumeFrom;
    hide FinishedLog;
    hide At;
    hide Lapsed;
    var s := At(maxBytes, events, |events|);
    var log := s.log.chunks;
    if visits == [] {
      assert ResumeFrom("") == 0 by { NoHeader(); }
    } else {
      var front, v := visits[..|visits| - 1], visits[|visits| - 1];
      assert visits[..|visits|] == visits;
      ServedFront(kind, maxBytes, events, end, visits);
      ForgotFront(kind, visits);
      hide NoneForgot;
      hide AllServed;
      hide NothingMissedBelow;
      hide MissedNoneBelow;
      var before := LiveAll(kind, Client([], ""), front);
      LiveHolds(kind, maxBytes, events, v.at, front);
      ServedAtEnd(maxBytes, events, before, v, end);
      assert v.arrived <= |Text(v.items)|;
      hide Serves;
      PlaysAreReachable(maxBytes, events, end);
      PlaysAreReachable(maxBytes, events, |events|);
      hide Reachable;
      ReceivedIsKept(s, before, v);
      PositionReached(kind, At(maxBytes, events, end), before, v);
      hide ServedIn;
      if NoneForgot(kind, visits) {
        LiveBrings(kind, s, before, v);
        MissedFront(kind, s, visits);
        var from, to := ResumeFrom(before.lastId), Position(kind, visits, |visits|);
        Extends(log, before.got, from, LiveAll(kind, Client([], ""), visits).got, to);
      } else {
        if NoneForgot(kind, front) {
          ForgettingHadMore(kind, before, v);
        } else {
          LapsedHasChunks(before);
        }
        LapseLasts(kind, s, before, v);
      }
    }
  }

  lemma {:induction false} ForgettingHadMore(kind: ReaderKind, c: Client, v: LiveVisit)
    requires Forgets(kind, c, v.items, v.arrived)
    ensures ResumeFrom(c.lastId) > 0
  {
  }

  lemma {:induction false} LapsedHasChunks(c: Client)
    requires Lapsed(c)
    ensures c.got != []
  {
  }

  lemma {:induction false} ForgotFront(kind: ReaderKind, visits: seq<LiveVisit>)
    requires visits != []
    ensures var front, v := visits[..|visits| - 1], visits[|visits| - 1];
            NoneForgot(kind, visits) <==>
            NoneForgot(kind, front) && !Forgets(kind, LiveAll(kind, Client([], ""), front), v.items, v.arrived)
  {
    hide Forgets;
    hide LiveAll;
    var front := visits[..|visits| - 1];
    forall j | 0 <= j < |front| ensures LiveForgets(kind, front, j) <==> LiveForgets(kind, visits, j) {
      assert front[..j] == visits[..j] && front[j] == visits[j];
    }
    if NoneForgot(kind, visits) {
      assert !LiveForgets(kind, visits, |front|);
    }
  }

  lemma {:induction false} PlaysAreReachable(maxBytes: int, events: seq<Event>, n: nat)
    requires n <= |events|
    ensures Reachable(At(maxBytes, events, n))
  {
    hide Play;
  }

  lemma {:induction false} ServedFront(kind: ReaderKind, maxBytes: int, events: seq<Event>, end: nat,
                                       visits: seq<LiveVisit>)
    requires visits != [] && AllServed(kind, maxBytes, events, end, visits)
    ensures var front, v := visits[..|visits| - 1], visits[|visits| - 1];
            var before := LiveAll(kind, Client([], ""), front);
            AllServed(kind, maxBytes, events, v.at, front) && Serves(maxBytes, events, before, v, end)
  {
    hide LiveAll;
    hide At;
    hide Wrote;
    hide Enabled;
    var front, v := visits[..|visits| - 1], visits[|visits| - 1];
    assert ServedOne(kind, maxBytes, events, end, visits, |front|);
    assert v.at <= |events|;
    hide Serves;
    forall j | 0 <= j < |front| ensures ServedOne(kind, maxBytes, events, v.at, front, j) {
      assert ServedOne(kind, maxBytes, events, end, visits, j);
      assert front[..j] == visits[..j] && Until(v.at, front, j) == Until(end, visits, j);
    }
  }

  lemma {:induction false} NoHeader()
    ensures ResumeFrom("") == 0
  {
  }

  lemma {:induction false} Extends(log: seq<Chunk>, g: seq<Chunk>, from: nat, t: seq<Chunk>, to: nat)
    requires |g| <= from <= to <= |log| && (g == log[..from] || |g| < from)
    requires t == g + log[from..to] || |t| - |g| < to - from
    ensures |t| <= to
    ensures if g == log[..from] && t == g + log[from..to] then t == log[..to] else |t| < to
  {
    assert log[..from] + log[from..to] == log[..to];
  }

  lemma {:induction false} MissedFront(kind: ReaderKind, s: State, visits: seq<LiveVisit>)
    requires visits != []
    ensures NothingMissedBelow(kind, s, visits) <==>
            && NothingMissedBelow(kind, s, visits[..|visits| - 1])
            && MissedNoneBelow(s, visits[|visits| - 1].sub, Position(kind, visits, |visits|))
  {
    hide MissedNoneBelow;
    hide LiveAll;
    var front := visits[..|visits| - 1];
    forall j | 0 <= j < |front|
      ensures front[j] == visits[j] && Position(kind, front, j + 1) == Position(kind, visits, j + 1)
    {
      assert front[..j + 1] == visits[..j + 1];
    }
    hide Position;
    if NothingMissedBelow(kind, s, visits) {
      assert MissedNoneBelow(s, visits[|front|].sub, Position(kind, visits, |front| + 1));
    }
  }

  /** Only a client whose chunks come from the beginning, each once, can still come to hold the log. */
  lemma {:induction false} LapsedNeverWhole(log: seq<Chunk>, c: Client)
    requires FinishedLog(log) && Lapsed(c) && ResumeFrom(c.lastId) <= |log|
    ensures c.got + log[ResumeFrom(c.lastId)..] != log
  {
    hide ResumeFrom;
    var rest := log[ResumeFrom(c.lastId)..];
    if !StrictlyIncreasing(c.got) {
      StaysUnordered(c.got, rest);
    } else {
      assert |c.got + rest| > |log|;
    }
  }

  /**
   From the running exec to the end: a client that connects while chunks are produced, is cut off and
   reconnects any number of times, and after the exec has finished makes enough unbroken connections that do
   not make it forget its position, holds the whole log if and only if none of its live connections made it
   forget either, and no chunk dropped for one of them lies below the position it resumed from after it.
   */
  lemma {:induction false} LiveThenFinishedIff(kind: ReaderKind, maxBytes: int, events: seq<Event>,
                                               lives: seq<LiveVisit>, visits: seq<Visit>)
    requires AllServed(kind, maxBytes, events, |events|, lives)
    requires FinishedLog(At(maxBytes, events, |events|).log.chunks)
    requires var log, c := At(maxBytes, events, |events|).log.chunks, LiveAll(kind, Client([], ""), lives);
             && NeverForgets(kind, log, c, visits) && Unbroken(visits)
             && |visits| >= Rounds(log, ResumeFrom(c.lastId))
    ensures var s, c := At(maxBytes, events, |events|), LiveAll(kind, Client([], ""), lives);
            ConnectAll(kind, s.log.chunks, c, visits).got == s.log.chunks <==>
            NothingMissedBelow(kind, s, lives) && NoneForgot(kind, lives)
  {
    hide ConnectAll;
    hide NeverForgets;
    hide NothingMissedBelow;
    hide NoneForgot;
    hide FinishedLog;
    hide ResumeFrom;
    hide AllServed;
    hide LiveAll;
    hide At;
    hide Lapsed;
    var log, c := At(maxBytes, events, |events|).log.chunks, LiveAll(kind, Client([], ""), lives);
    var p := ResumeFrom(c.lastId);
    LiveHolds(kind, maxBytes, events, |events|, lives);
    GotIsAppended(kind, log, c, visits);
    ForgettingIgnoresGot(kind, log, c, visits);
    RebuiltIffEnoughRounds(kind, log, p, c.lastId, visits);
    if NoneForgot(kind, lives) {
      assert log == log[..p] + log[p..];
    } else {
      LapsedNeverWhole(log, c);
    }
  }

  // ---------------------------------------------------------------- a heartbeat on a quiet exec

  const FIRST: Chunk := Chunk(0, Stdout, [7], 0)
  const LAST: Chunk := Chunk(1, Done, [], 0)

  /** One chunk, read by a first connection; a second one that finds nothing new; then the end. */
  function QuietRun(): seq<Event> {
    [Commit(Offer(Stdout, [7])), Subscribe(0, 0), Receive(0), Cancel(0), Subscribe(1, 1),
     Commit(Finish(Completed, 0, "", 0))]
  }

  lemma {:induction false} Plays(maxBytes: int, events: seq<Event>, n: nat)
    requires n < |events|
    ensures At(maxBytes, events, n + 1) ==
            if Enabled(At(maxBytes, events, n), events[n]) then Next(At(maxBytes, events, n), events[n])
            else At(maxBytes, events, n)
  {
    assert events[..n + 1][..n] == events[..n];
  }

  /** A subscription to a short log of a running exec. */
  lemma {:induction false} SubscribesToAll(s: State, id: SubId, fromSeq: nat)
    requires Enabled(s, Subscribe(id, fromSeq)) && s.log.status == Running
    requires Numbered(s.log.chunks) && fromSeq <= |s.log.chunks| <= SUBSCRIBER_SLOTS
    ensures var t, n := Next(s, Subscribe(id, fromSeq)), |s.log.chunks|;
            t == s.(subs := s.subs[id := Sub(fromSeq, true, s.log.chunks[fromSeq..], [], n, n, {})])
  {
    ReplayIsSlice(s.log.chunks, fromSeq);
    ReplayMissedIs(s.log.chunks, fromSeq);
    assert ReplayMissed(s.log.chunks, fromSeq) == {};
    assert Replay(s.log.chunks, fromSeq) == s.log.chunks[fromSeq..];
  }

  lemma {:induction false} FirstChunk()
    ensures var s := At(1, QuietRun(), 1);
            && s.log == FreshLog(1).(chunks := [FIRST], nextSeq := 1, outputBytes := 1)
            && s.subs == map[] && s.pending == {} && !s.panicked
  {
    var s0 := Init(1);
    assert At(1, QuietRun(), 0) == s0;
    Plays(1, QuietRun(), 0);
    hide At;
    assert [7][..1] == [7];
    assert Registered(s0) == {};
  }

  lemma {:induction false} FirstConnectionReads()
    ensures var s := At(1, QuietRun(), 4);
            && s.log == FreshLog(1).(chunks := [FIRST], nextSeq := 1, outputBytes := 1)
            && s.pending == {} && !s.panicked
            && s.subs == map[0 := Sub(0, false, [], [FIRST], 1, 1, {})]
  {
    var run := QuietRun();
    FirstChunk();
    Plays(1, run, 1);
    Plays(1, run, 2);
    Plays(1, run, 3);
    hide At;
    hide Next;
    SubscribesToAll(At(1, run, 1), 0, 0);
    ReadsAndGoes(At(1, run, 2));
  }

  lemma {:induction false} ReadsAndGoes(s: State)
    requires !s.panicked && s.subs == map[0 := Sub(0, true, [FIRST], [], 1, 1, {})]
    ensures Enabled(s, Receive(0)) && Enabled(Next(s, Receive(0)), Cancel(0))
    ensures Next(Next(s, Receive(0)), Cancel(0)) == s.(subs := map[0 := Sub(0, false, [], [FIRST], 1, 1, {})])
  {
    var t := Next(s, Receive(0));
    assert [FIRST][1..] == [] && [] + [FIRST] == [FIRST];
    assert t == s.(subs := map[0 := Sub(0, true, [], [FIRST], 1, 1, {})]);
  }

  lemma {:induction false} SecondConnectionWaits()
    ensures Enabled(At(1, QuietRun(), 4), Subscribe(1, 1))
    ensures var s := At(1, QuietRun(), 6);
            && s.log.chunks == [FIRST, LAST] && s.subs.Keys == {0, 1}
            && s.subs[0].missed == {} && s.subs[1].missed == {}
  {
    var run := QuietRun();
    FirstConnectionReads();
    Plays(1, run, 4);
    hide Replay;
    hide ReplayMissed;
    var s4, s5 := At(1, run, 4), At(1, run, 5);
    Plays(1, run, 5);
    hide At;
    SubscribesToAll(s4, 1, 1);
    assert s5 == Next(s4, Subscribe(1, 1));
    EndsQuietly(s5);
  }

  lemma {:induction false} EndsQuietly(s: State)
    requires s.log == FreshLog(1).(chunks := [FIRST], nextSeq := 1, outputBytes := 1)
    requires !s.panicked && s.pending == {}
    ensures var e := Commit(Finish(Completed, 0, "", 0));
            Enabled(s, e) && Next(s, e).log.chunks == [FIRST, LAST] && Next(s, e).subs == s.subs
  {
    hide Registered;
  }

  /** The first connection gets its chunk whole; the second gets one heartbeat. */
  function QuietVisits(): seq<LiveVisit> {
    [LiveVisit(1, 0, [Write(FIRST)], |Text([Write(FIRST)])|), LiveVisit(4, 1, [Heartbeat], |Text([Heartbeat])|)]
  }

  lemma {:induction false} QuietClient()
    ensures var lives := QuietVisits();
            var c1, c2 := LiveAll(Standard, Client([], ""), lives[..1]), LiveAll(Standard, Client([], ""), lives[..2]);
            && lives[..0] == [] && lives[..2] == lives
            && c1.got == [FIRST] && ResumeFrom(c1.lastId) == 1
            && Forgets(Standard, c1, lives[1].items, lives[1].arrived)
            && c2.got == [FIRST] && ResumeFrom(c2.lastId) == 0
            && ChunksOf(lives[0].items) == [FIRST] && ChunksOf(lives[1].items) == []
  {
    hide Text;
    hide Absorb;
    hide ResumeFrom;
    var lives := QuietVisits();
    assert lives[..1][..0] == [] && lives[..2][..1] == lives[..1] && lives[..2] == lives;
    assert lives[0].items[1..] == [] && lives[1].items[1..] == [];
    var c0 := Client([], "");
    var c1, c2 := LiveAll(Standard, c0, lives[..1]), LiveAll(Standard, c0, lives[..2]);
    assert LiveAll(Standard, c0, []) == c0;
    assert c1 == Absorb(Standard, c0, lives[0].items, lives[0].arrived);
    assert c2 == Absorb(Standard, c1, lives[1].items, lives[1].arrived);
    WholeTextArrives(lives[0].items);
    WholeTextArrives(lives[1].items);
    assert lives[0].items[..1] == lives[0].items && lives[1].items[..1] == lives[1].items;
    Absorbs(Standard, c0, lives[0].items, lives[0].arrived);
    Absorbs(Standard, c1, lives[1].items, lives[1].arrived);
  }

  /**
   Nothing was dropped, and still a reader that follows the standard ends up with a chunk too many: the
   heartbeat of the second connection sends it back to the beginning.
   */
  lemma {:induction false} HeartbeatRepeatsAChunk()
    ensures var s, lives := At(1, QuietRun(), |QuietRun()|), QuietVisits();
            && AllServed(Standard, 1, QuietRun(), |QuietRun()|, lives) && FinishedLog(s.log.chunks)
            && NothingMissedBelow(Standard, s, lives)
            && ConnectAll(Standard, s.log.chunks, LiveAll(Standard, Client([], ""), lives), [Visit([], None)]).got ==
               [FIRST] + s.log.chunks
  {
    hide LiveAll;
    hide Forgets;
    hide ChunksOf;
    hide ConnectAll;
    hide ResumeFrom;
    var run, lives := QuietRun(), QuietVisits();
    FirstChunk();
    FirstConnectionReads();
    SecondConnectionWaits();
    QuietClient();
    NoHeader();
    assert LiveAll(Standard, Client([], ""), []) == Client([], "") by { NoVisits(); }
    hide At;
    var s, c := At(1, run, 6), LiveAll(Standard, Client([], ""), lives);
    assert Until(6, lives, 0) == 4 && lives[..0] == [];
    assert Wrote(At(1, run, 4), lives[0]);
    assert ServedOne(Standard, 1, run, 6, lives, 0);
    assert ServedOne(Standard, 1, run, 6, lives, 1);
    var log, last := s.log.chunks, [Visit([], None)];
    assert Numbered(log) && OnlyDoneAt(log, 1) && Canonical(log[0]) && Canonical(log[1]);
    NothingForgottenOnTheWay(Standard, log, 0, c.lastId, last);
    RebuiltIffEnoughRounds(Standard, log, 0, c.lastId, last);
    GotIsAppended(Standard, log, c, last);
    assert log[0..] == log;
  }

  lemma {:induction false} NoVisits()
    ensures LiveAll(Standard, Client([], ""), []) == Client([], "")
  {
  }
}
