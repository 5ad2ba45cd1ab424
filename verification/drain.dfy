/** Draining an agent stream into a record, whatever the stream delivers before it ends. */
module Drains {
  import opened ExecTypes
  import opened ExecLog
  import opened ExecRecords
  import opened ExecRows
  import opened GuestPipeline
  import opened Registries

  const NO_DONE: string := "agent stream ended without Done frame"

  /** Empty slices are not appended. */
  function StreamOps(kind: ChunkKind, data: seq<byte>): seq<Op> {
    if data == [] then [] else [Offer(kind, data)]
  }

  function DoneOps(f: Frame, now: int): seq<Op> {
    if f.done then [Finish(Completed, f.exitCode, "", now)] else []
  }

  /** The calls one frame causes. */
  function FrameOps(f: Frame, now: int): seq<Op> {
    StreamOps(Stdout, f.stdout) + StreamOps(Stderr, f.stderr) + DoneOps(f, now)
  }

  function FramesOps(frames: seq<Frame>, now: int): seq<Op> {
    if frames == [] then [] else FramesOps(frames[..|frames| - 1], now) + FrameOps(frames[|frames| - 1], now)
  }

  /** The exit code of the first Done frame. */
  function FirstDone(frames: seq<Frame>): Option<int32> {
    if frames == [] then None
    else
      var before, last := FirstDone(frames[..|frames| - 1]), frames[|frames| - 1];
      if before.Some? then before else if last.done then Some(last.exitCode) else None
  }

  /** All the calls a drain makes: the record is marked errored when no Done came. */
  function DrainOps(frames: seq<Frame>, now: int): seq<Op> {
    FramesOps(frames, now) + if FirstDone(frames).Some? then [] else [Finish(Errored, -1, NO_DONE, now)]
  }

  /** A row after these calls on its record, which was at `l`: as it was, or the final row of one of its ends. */
  ghost predicate StoredFor(before: Row, after: Row, l: Log, ops: seq<Op>) {
    || after == before
    || exists n :: 0 < n <= |ops| && ops[n - 1].Finish? && after == FinalRow(before, Run(l, ops[..n]))
  }

  /** Only the row of this record may have changed, and only to what an end of the record stores. */
  ghost predicate OnlyStores(before: map<string, Row>, after: map<string, Row>, id: string, l: Log, ops: seq<Op>) {
    && after.Keys == before.Keys
    && (forall k | k in before && k != id :: after[k] == before[k])
    && (id in before ==> StoredFor(before[id], after[id], l, ops))
  }

  lemma {:induction false} StartStores(rows: map<string, Row>, id: string, l: Log, ops: seq<Op>)
    ensures OnlyStores(rows, rows, id, l, ops)
  {
  }

  lemma {:induction false} FinishStores(rows: map<string, Row>, after: map<string, Row>, id: string, l: Log, op: Op,
                                        fault: bool)
    requires op.Finish?
    requires after == if fault || id !in rows then rows else rows[id := FinalRow(rows[id], Run(l, [op]))]
    ensures OnlyStores(rows, after, id, l, [op])
  {
    hide FinalRow;
    hide Run;
    assert [op][..1] == [op];
    assert [op][1 - 1] == op;
  }

  /** A second final write replaces every column the first one wrote. */
  lemma {:induction false} SecondWriteWins(row: Row, l: Log, l': Log)
    ensures FinalRow(FinalRow(row, l), l') == FinalRow(row, l')
  {
  }

  lemma {:induction false} RowComposes(first: Row, mid: Row, last: Row, l: Log, a: seq<Op>, b: seq<Op>)
    requires StoredFor(first, mid, l, a) && StoredFor(mid, last, Run(l, a), b)
    ensures StoredFor(first, last, l, a + b)
  {
    hide FinalRow;
    hide Run;
    if last == mid {
      if mid != first {
        var n :| 0 < n <= |a| && a[n - 1].Finish? && mid == FinalRow(first, Run(l, a[..n]));
        assert (a + b)[..n] == a[..n] && (a + b)[n - 1] == a[n - 1];
      }
    } else {
      var n :| 0 < n <= |b| && b[n - 1].Finish? && last == FinalRow(mid, Run(Run(l, a), b[..n]));
      var m := |a| + n;
      assert (a + b)[..m] == a + b[..n] && (a + b)[m - 1] == b[n - 1];
      RunConcat(l, a, b[..n]);
      if mid != first {
        var k :| 0 < k <= |a| && a[k - 1].Finish? && mid == FinalRow(first, Run(l, a[..k]));
        SecondWriteWins(first, Run(l, a[..k]), Run(l, (a + b)[..m]));
      }
    }
  }

  lemma {:induction false} StoresCompose(first: map<string, Row>, mid: map<string, Row>, last: map<string, Row>,
                                         id: string, l: Log, a: seq<Op>, b: seq<Op>)
    requires OnlyStores(first, mid, id, l, a) && OnlyStores(mid, last, id, Run(l, a), b)
    ensures OnlyStores(first, last, id, l, a + b)
  {
    hide StoredFor;
    hide Run;
    if id in first {
      RowComposes(first[id], mid[id], last[id], l, a, b);
    }
  }

  /**
   What a drain may have written agrees with the record it leaves behind in everything an end decides, and
   every column that the final UPDATE does not name is as it was.
   */
  lemma {:induction false} StoredRowAgrees(before: Row, after: Row, l: Log, ops: seq<Op>)
    requires StoredFor(before, after, l, ops) && after != before && AllProper(ops)
    ensures var r := Run(l, ops);
            && after.status == StatusText(r.status) && after.exitCode == Some(r.exitCode)
            && after.completionErr == NullIfEmpty(r.completionErr) && after.completedAt == Some(r.completedAt)
            && (exists n :: 0 < n <= |ops| && after.stdout == OutputOf(Stdout, Run(l, ops[..n]).chunks)
                            && after.stderr == OutputOf(Stderr, Run(l, ops[..n]).chunks))
            && after.(status := before.status, exitCode := before.exitCode, stdout := before.stdout,
                      stderr := before.stderr, truncated := before.truncated,
                      completionErr := before.completionErr, completedAt := before.completedAt) == before
  {
    var n :| 0 < n <= |ops| && ops[n - 1].Finish? && after == FinalRow(before, Run(l, ops[..n]));
    FinishEnds(l, ops[..n]);
    hide Run;
    hide OutputOf;
    assert ops == ops[..n] + ops[n..];
    RunConcat(l, ops[..n], ops[n..]);
    RunExtends(Run(l, ops[..n]), ops[n..]);
  }

  lemma {:induction false} FinishEnds(l: Log, ops: seq<Op>)
    requires ops != [] && ops[|ops| - 1].Finish? && AllProper(ops)
    ensures Run(l, ops).status != Running
  {
  }

  lemma {:induction false} RunOne(l: Log, op: Op)
    ensures Run(l, [op]) == Step(l, op)
  {
    assert [op][..0] == [];
  }

  method AppendStream(kind: ChunkKind, data: seq<byte>, rec: ExecRecord)
    requires rec.Valid()
    modifies rec, rec.subscribers
    ensures rec.Valid() && rec.subscribers == old(rec.subscribers)
    ensures rec.State() == Run(old(rec.State()), StreamOps(kind, data))
  {
    hide AppendLog;
    if |data| > 0 {
      RunOne(rec.State(), Offer(kind, data));
      rec.Append(kind, data);
    }
  }

  method FinishFrame(f: Frame, registry: Registry, rec: ExecRecord, now: int)
    requires rec.Valid()
    modifies rec, rec.subscribers, registry.db`execs
    ensures rec.Valid() && rec.subscribers == old(rec.subscribers)
    ensures rec.State() == Run(old(rec.State()), DoneOps(f, now))
    ensures f.done ==> rec.status != Running
    ensures OnlyStores(old(registry.db.execs), registry.db.execs, rec.id, old(rec.State()), DoneOps(f, now))
  {
    hide OnlyStores;
    hide FinalRow;
    hide Run;
    ghost var rows, l := registry.db.execs, rec.State();
    ghost var end := Finish(Completed, f.exitCode, "", now);
    if f.done {
      var fault: bool := *;
      RunOne(l, end);
      registry.Finish(rec, Completed, f.exitCode, "", now, fault);
      FinishStores(rows, registry.db.execs, rec.id, l, end, fault);
    } else {
      RunNothing(l);
      StartStores(rows, rec.id, l, []);
    }
  }

  /** One frame's worth of calls. */
  method DrainFrame(f: Frame, registry: Registry, rec: ExecRecord, now: int)
    requires rec.Valid()
    modifies rec, rec.subscribers, registry.db`execs
    ensures rec.Valid() && rec.subscribers == old(rec.subscribers)
    ensures rec.State() == Run(old(rec.State()), FrameOps(f, now))
    ensures f.done ==> rec.status != Running
    ensures OnlyStores(old(registry.db.execs), registry.db.execs, rec.id, old(rec.State()), FrameOps(f, now))
  {
    hide OnlyStores;
    hide Run;
    hide StreamOps;
    hide DoneOps;
    ghost var rows, l := registry.db.execs, rec.State();
    ghost var data := StreamOps(Stdout, f.stdout) + StreamOps(Stderr, f.stderr);
    RunConcat(l, StreamOps(Stdout, f.stdout), StreamOps(Stderr, f.stderr));
    RunConcat(l, data, DoneOps(f, now));
    StartStores(rows, rec.id, l, data);
    AppendStream(Stdout, f.stdout, rec);
    AppendStream(Stderr, f.stderr, rec);
    FinishFrame(f, registry, rec, now);
    StoresCompose(rows, rows, registry.db.execs, rec.id, l, data, DoneOps(f, now));
  }

  /** Consumes the agent's channel until it closes; the table writes may fail. */
  method DrainIntoRecord(frames: seq<Frame>, registry: Registry, rec: ExecRecord, now: int)
    requires rec.Valid()
    modifies rec, rec.subscribers, registry.db`execs
    ensures rec.Valid() && rec.subscribers == old(rec.subscribers)
    ensures rec.State() == Run(old(rec.State()), DrainOps(frames, now))
    ensures rec.status != Running
    ensures OnlyStores(old(registry.db.execs), registry.db.execs, rec.id, old(rec.State()), DrainOps(frames, now))
  {
    hide OnlyStores;
    hide Run;
    ghost var l, first := rec.State(), registry.db.execs;
    var gotDone := false;
    StartStores(first, rec.id, l, []);
    RunNothing(l);
    for i := 0 to |frames|
      invariant rec.Valid() && rec.subscribers == old(rec.subscribers)
      invariant rec.State() == Run(l, FramesOps(frames[..i], now))
      invariant gotDone <==> FirstDone(frames[..i]).Some?
      invariant gotDone ==> rec.status != Running
      invariant OnlyStores(first, registry.db.execs, rec.id, l, FramesOps(frames[..i], now))
    {
      ghost var before, rows, ops := rec.State(), registry.db.execs, FrameOps(frames[i], now);
      assert frames[..i + 1][..i] == frames[..i];
      RunConcat(l, FramesOps(frames[..i], now), ops);
      RunExtends(before, ops);
      DrainFrame(frames[i], registry, rec, now);
      StoresCompose(first, rows, registry.db.execs, rec.id, l, FramesOps(frames[..i], now), ops);
      if frames[i].done {
        gotDone := true;
      }
    }
    assert frames[..|frames|] == frames;
    if !gotDone {
      ghost var before, rows, end := rec.State(), registry.db.execs, Finish(Errored, -1, NO_DONE, now);
      var fault: bool := *;
      RunConcat(l, FramesOps(frames, now), [end]);
      RunOne(before, end);
      registry.Finish(rec, Errored, -1, NO_DONE, now, fault);
      FinishStores(rows, registry.db.execs, rec.id, before, end, fault);
      StoresCompose(first, rows, registry.db.execs, rec.id, l, FramesOps(frames, now), [end]);
    } else {
      assert DrainOps(frames, now) == FramesOps(frames, now);
    }
  }

  // ---------------------------------------------------------------- what a drain leaves behind

  lemma {:induction false} FirstFinishConcat(a: seq<Op>, b: seq<Op>)
    ensures FirstFinish(a + b) == if FirstFinish(a).Some? then FirstFinish(a) else FirstFinish(b)
    decreases |b|
  {
    if b == [] {
      assert a + b == a;
    } else {
      assert (a + b)[..|a + b| - 1] == a + b[..|b| - 1];
      FirstFinishConcat(a, b[..|b| - 1]);
    }
  }

  lemma {:induction false} FrameFirstFinish(f: Frame, now: int)
    ensures FirstFinish(FrameOps(f, now)) ==
            if f.done then Some(Finish(Completed, f.exitCode, "", now)) else None
    ensures AllProper(FrameOps(f, now)) && NoEmptyOffer(FrameOps(f, now))
  {
    var out, err, fin := StreamOps(Stdout, f.stdout), StreamOps(Stderr, f.stderr), DoneOps(f, now);
    FirstFinishConcat(out + err, fin);
    FirstFinishConcat(out, err);
    FirstFinishOne(Offer(Stdout, f.stdout));
    FirstFinishOne(Offer(Stderr, f.stderr));
    FirstFinishOne(Finish(Completed, f.exitCode, "", now));
    hide FirstFinish;
  }

  lemma {:induction false} FirstFinishOne(op: Op)
    ensures FirstFinish([op]) == if op.Finish? then Some(op) else None
    ensures FirstFinish([]) == None
  {
    assert [op][..0] == [];
  }

  lemma {:induction false} FramesFirstFinish(frames: seq<Frame>, now: int)
    ensures FirstFinish(FramesOps(frames, now)) ==
            (match FirstDone(frames) case Some(code) => Some(Finish(Completed, code, "", now)) case None => None)
    ensures AllProper(FramesOps(frames, now)) && NoEmptyOffer(FramesOps(frames, now))
    decreases |frames|
  {
    hide FrameOps;
    if frames != [] {
      var front, last := frames[..|frames| - 1], frames[|frames| - 1];
      FramesFirstFinish(front, now);
      FrameFirstFinish(last, now);
      FirstFinishConcat(FramesOps(front, now), FrameOps(last, now));
    }
  }

  lemma {:induction false} DrainFirstFinish(frames: seq<Frame>, now: int)
    ensures FirstFinish(DrainOps(frames, now)) == Some(
              match FirstDone(frames)
              case Some(code) => Finish(Completed, code, "", now)
              case None => Finish(Errored, -1, NO_DONE, now))
    ensures AllProper(DrainOps(frames, now)) && NoEmptyOffer(DrainOps(frames, now))
  {
    FramesFirstFinish(frames, now);
    hide FramesOps;
    hide FirstFinish;
    var end := [Finish(Errored, -1, NO_DONE, now)];
    FirstFinishOne(end[0]);
    FirstFinishConcat(FramesOps(frames, now), if FirstDone(frames).Some? then [] else end);
  }

  /**
   For every finite agent stream, cut off anywhere, the record ends terminal with exactly one Done chunk:
   completed with the first Done's exit code, or errored with -1 if none came.
   */
  lemma {:induction false} DrainFinishes(maxBytes: int, frames: seq<Frame>, now: int)
    ensures var l := Run(FreshLog(maxBytes), DrainOps(frames, now));
            && WellFormed(l)
            && (exists d: nat :: OnlyDoneAt(l.chunks, d) && l.chunks[d].exitCode == l.exitCode)
            && (match FirstDone(frames)
                case Some(code) => l.status == Completed && l.exitCode == code && l.completionErr == ""
                case None => l.status == Errored && l.exitCode == -1
                             && l.completionErr == "agent stream ended without Done frame")
  {
    hide DrainOps;
    hide Run;
    DrainFirstFinish(frames, now);
    FirstFinishWins(maxBytes, DrainOps(frames, now));
    RunWellFormed(maxBytes, DrainOps(frames, now));
  }

  function KindOf(isErr: bool): ChunkKind {
    if isErr then Stderr else Stdout
  }

  lemma {:induction false} OfferedConcat(a: seq<Op>, b: seq<Op>)
    ensures OfferedBytes(a + b) == OfferedBytes(a) + OfferedBytes(b)
    decreases |b|
  {
    if b == [] {
      assert a + b == a;
    } else {
      assert (a + b)[..|a + b| - 1] == a + b[..|b| - 1];
      OfferedConcat(a, b[..|b| - 1]);
    }
  }

  lemma {:induction false} OfferedOne(op: Op)
    ensures OfferedBytes([op]) == match op case Offer(kind, data) => Tag(kind, data) case Finish(_, _, _, _) => []
  {
    assert [op][..0] == [];
  }

  lemma {:induction false} StreamOffers(kind: ChunkKind, data: seq<byte>)
    ensures OfferedBytes(StreamOps(kind, data)) == Tag(kind, data)
  {
    OfferedOne(Offer(kind, data));
  }

  lemma {:induction false} FrameOffered(f: Frame, now: int)
    ensures OfferedBytes(FrameOps(f, now)) == Tag(Stdout, f.stdout) + Tag(Stderr, f.stderr)
  {
    hide OfferedBytes;
    hide Tag;
    hide StreamOps;
    var out, err, fin := StreamOps(Stdout, f.stdout), StreamOps(Stderr, f.stderr), DoneOps(f, now);
    OfferedConcat(out + err, fin);
    OfferedConcat(out, err);
    StreamOffers(Stdout, f.stdout);
    StreamOffers(Stderr, f.stderr);
    OfferedNone();
    OfferedOne(Finish(Completed, f.exitCode, "", now));
    assert OfferedBytes(fin) == [];
  }

  lemma {:induction false} FrameOffers(f: Frame, now: int, isErr: bool)
    ensures Project(KindOf(isErr), OfferedBytes(FrameOps(f, now))) == if isErr then f.stderr else f.stdout
    ensures forall i :: 0 <= i < |OfferedBytes(FrameOps(f, now))| ==> OfferedBytes(FrameOps(f, now))[i].0 != Done
  {
    hide OfferedBytes;
    hide FrameOps;
    hide Project;
    FrameOffered(f, now);
    ProjectConcat(KindOf(isErr), Tag(Stdout, f.stdout), Tag(Stderr, f.stderr));
    ProjectTag(KindOf(isErr), Stdout, f.stdout);
    ProjectTag(KindOf(isErr), Stderr, f.stderr);
  }

  /** The drain offers each stream's bytes exactly as the frames carry them. */
  lemma {:induction false} FramesOffers(frames: seq<Frame>, now: int, isErr: bool)
    ensures Project(KindOf(isErr), OfferedBytes(FramesOps(frames, now))) == BytesOf(isErr, frames)
    ensures forall i :: 0 <= i < |OfferedBytes(FramesOps(frames, now))| ==>
              OfferedBytes(FramesOps(frames, now))[i].0 != Done
    decreases |frames|
  {
    hide FrameOps;
    hide OfferedBytes;
    if frames == [] {
      assert OfferedBytes([]) == [] by { OfferedNone(); }
    } else {
      var front, last := frames[..|frames| - 1], frames[|frames| - 1];
      FramesOffers(front, now, isErr);
      FrameOffers(last, now, isErr);
      OfferedConcat(FramesOps(front, now), FrameOps(last, now));
      ProjectConcat(KindOf(isErr), OfferedBytes(FramesOps(front, now)), OfferedBytes(FrameOps(last, now)));
    }
  }

  lemma {:induction false} OfferedNone()
    ensures OfferedBytes([]) == []
  {
  }

  lemma {:induction false} DrainOffers(frames: seq<Frame>, now: int)
    ensures var offered := OfferedBytes(DrainOps(frames, now));
            && Project(Stdout, offered) == BytesOf(false, frames)
            && Project(Stderr, offered) == BytesOf(true, frames)
            && |offered| == |BytesOf(false, frames)| + |BytesOf(true, frames)|
  {
    hide FramesOps;
    hide OfferedBytes;
    var end := if FirstDone(frames).Some? then [] else [Finish(Errored, -1, NO_DONE, now)];
    OfferedConcat(FramesOps(frames, now), end);
    OfferedOne(Finish(Errored, -1, NO_DONE, now));
    OfferedNone();
    var offered := OfferedBytes(FramesOps(frames, now));
    assert OfferedBytes(DrainOps(frames, now)) == offered;
    FramesOffers(frames, now, false);
    FramesOffers(frames, now, true);
    ProjectLengths(offered);
  }

  /**
   After a drain, `Output` is a prefix of what each stream carried; together they hold exactly
   min(T, cap) of the T bytes, and the record says truncated if and only if T exceeds the cap.
   */
  lemma {:induction false} DrainKeepsPrefixes(maxBytes: int, frames: seq<Frame>, now: int)
    ensures var l := Run(FreshLog(maxBytes), DrainOps(frames, now));
            var stdout, stderr := OutputOf(Stdout, l.chunks), OutputOf(Stderr, l.chunks);
            var total := |BytesOf(false, frames)| + |BytesOf(true, frames)|;
            && stdout <= BytesOf(false, frames) && stderr <= BytesOf(true, frames)
            && |stdout| + |stderr| == l.outputBytes == Min(total, ClampMax(maxBytes))
            && (l.truncated <==> total > ClampMax(maxBytes))
  {
    hide Run;
    hide DrainOps;
    hide OfferedBytes;
    hide BytesOf;
    var ops := DrainOps(frames, now);
    var l := Run(FreshLog(maxBytes), ops);
    DrainFirstFinish(frames, now);
    DrainOffers(frames, now);
    CapKeepsPrefix(maxBytes, ops);
    TruncatedIffOverCap(maxBytes, ops);
    OutputIsProjection(Stdout, l.chunks);
    OutputIsProjection(Stderr, l.chunks);
    ProjectPrefix(Stdout, OfferedBytes(ops), l.outputBytes);
    ProjectPrefix(Stderr, OfferedBytes(ops), l.outputBytes);
    RunCanonical(maxBytes, ops);
    forall i | 0 <= i < |l.chunks| && l.chunks[i].kind == Done ensures l.chunks[i].data == [] {
      assert l.chunks[i] in l.chunks;
    }
    TaggedLength(l.chunks);
  }

  // ---------------------------------------------------------------- reading while the drain runs

  /** Nothing is appended after the first finish. */
  ghost predicate FinishComesLast(ops: seq<Op>) {
    forall i, j :: 0 <= i < j < |ops| && ops[i].Finish? ==> ops[j].Finish?
  }

  lemma {:induction false} RunningWithoutFinish(maxBytes: int, ops: seq<Op>, n: nat)
    requires n <= |ops| && Run(FreshLog(maxBytes), ops[..n]).status != Running
    ensures exists i :: 0 <= i < n && ops[i].Finish?
    decreases n
  {
    if n > 0 {
      assert ops[..n][..n - 1] == ops[..n - 1];
      if ops[n - 1].Offer? {
        RunningWithoutFinish(maxBytes, ops, n - 1);
      }
    }
  }

  lemma {:induction false} LaterFinishesChangeNothing(l: Log, ops: seq<Op>)
    requires l.status != Running && forall i :: 0 <= i < |ops| ==> ops[i].Finish?
    ensures Run(l, ops) == l
    decreases |ops|
  {
    if ops != [] {
      LaterFinishesChangeNothing(l, ops[..|ops| - 1]);
    }
  }

  /**
   `GetOutput` reads the status first and the output second, with any number of the drain's calls in
   between: if it reports a finished status, the rest of its reply is the final one.
   */
  lemma {:induction false} FinishedReplyIsFinal(maxBytes: int, ops: seq<Op>, status: nat, output: nat)
    requires FinishComesLast(ops) && status <= output <= |ops|
    requires Run(FreshLog(maxBytes), ops[..status]).status != Running
    ensures Run(FreshLog(maxBytes), ops[..status]) == Run(FreshLog(maxBytes), ops[..output]) == Run(FreshLog(maxBytes), ops)
  {
    hide Run;
    RunningWithoutFinish(maxBytes, ops, status);
    var i :| 0 <= i < status && ops[i].Finish?;
    var l := Run(FreshLog(maxBytes), ops[..status]);
    assert ops[..output] == ops[..status] + ops[status..output];
    RunConcat(FreshLog(maxBytes), ops[..status], ops[status..output]);
    LaterFinishesChangeNothing(l, ops[status..output]);
    assert ops == ops[..status] + ops[status..];
    RunConcat(FreshLog(maxBytes), ops[..status], ops[status..]);
    LaterFinishesChangeNothing(l, ops[status..]);
  }

  lemma {:induction false} DataOpsAreOffers(frames: seq<Frame>, now: int)
    requires forall i :: 0 <= i < |frames| ==> !frames[i].done
    ensures FirstDone(frames) == None
    ensures forall i :: 0 <= i < |FramesOps(frames, now)| ==> FramesOps(frames, now)[i].Offer?
    decreases |frames|
  {
    if frames != [] {
      DataOpsAreOffers(frames[..|frames| - 1], now);
    }
  }

  /** What the agent sends, whole or cut off: data frames, then perhaps one Done. */
  ghost predicate AgentStream(frames: seq<Frame>) {
    AllData(frames) || exists code :: EndsInDone(frames, code)
  }

  /** Done comes last, if at all; its frame may carry data too. */
  ghost predicate OnlyLastDone(frames: seq<Frame>) {
    forall i :: 0 <= i < |frames| - 1 ==> !frames[i].done
  }

  lemma {:induction false} AgentEndsInDone(frames: seq<Frame>)
    requires AgentStream(frames)
    ensures OnlyLastDone(frames)
  {
    if !AllData(frames) {
      var front := frames[..|frames| - 1];
      forall i | 0 <= i < |frames| - 1 ensures !frames[i].done {
        assert IsData(front[i]);
      }
    }
  }

  /** With Done last on the stream the drain's history is appends, then one finish. */
  lemma {:induction false} StreamFinishesLast(frames: seq<Frame>, now: int)
    requires OnlyLastDone(frames)
    ensures var ops := DrainOps(frames, now);
            && ops != [] && ops[|ops| - 1].Finish?
            && (forall i :: 0 <= i < |ops| - 1 ==> ops[i].Offer?)
            && FinishComesLast(ops)
  {
    if frames == [] || !frames[|frames| - 1].done {
      DataOpsAreOffers(frames, now);
      assert DrainOps(frames, now) == FramesOps(frames, now) + [Finish(Errored, -1, NO_DONE, now)];
    } else {
      var front, last := frames[..|frames| - 1], frames[|frames| - 1];
      DataOpsAreOffers(front, now);
      var data := StreamOps(Stdout, last.stdout) + StreamOps(Stderr, last.stderr);
      assert DrainOps(frames, now) == FramesOps(front, now) + data + [Finish(Completed, last.exitCode, "", now)];
    }
  }

  /**
   For whatever the agent's stream delivered before it ended, Done last if at all: a reply of `GetOutput` whose
   status was read after `status` of the drain's calls and whose output after `output` of them is final once it
   says finished.
   */
  lemma {:induction false} AgentReplyIsFinal(maxBytes: int, frames: seq<Frame>, now: int, status: nat, output: nat)
    requires OnlyLastDone(frames) && status <= output <= |DrainOps(frames, now)|
    requires Run(FreshLog(maxBytes), DrainOps(frames, now)[..status]).status != Running
    ensures Run(FreshLog(maxBytes), DrainOps(frames, now)[..output]) == Run(FreshLog(maxBytes), DrainOps(frames, now))
    ensures Run(FreshLog(maxBytes), DrainOps(frames, now)[..status]) == Run(FreshLog(maxBytes), DrainOps(frames, now))
  {
    hide Run;
    hide DrainOps;
    StreamFinishesLast(frames, now);
    FinishedReplyIsFinal(maxBytes, DrainOps(frames, now), status, output);
  }

  /** What `GetOutput` answers from. */
  datatype Reply = Reply(status: Status, exitCode: int32, truncated: bool, stdout: seq<byte>, stderr: seq<byte>)

  /** Its reply when the snapshot is taken after `status` of a record's calls and the output after `output`. */
  function ReadReply(maxBytes: int, ops: seq<Op>, status: nat, output: nat): Reply
    requires status <= output <= |ops|
  {
    var l, chunks := Run(FreshLog(maxBytes), ops[..status]), Run(FreshLog(maxBytes), ops[..output]).chunks;
    Reply(l.status, l.exitCode, l.truncated, OutputOf(Stdout, chunks), OutputOf(Stderr, chunks))
  }

  /** Whatever the two reads fall between, a reply that says finished is the last word. */
  ghost predicate FinishedRepliesAreFinal(maxBytes: int, ops: seq<Op>) {
    forall status: nat, output: nat ::
      status <= output <= |ops| && ReadReply(maxBytes, ops, status, output).status != Running
      ==> ReadReply(maxBytes, ops, status, output) == ReadReply(maxBytes, ops, |ops|, |ops|)
  }

  /** The first finish of a history stands at `d`. */
  ghost predicate FinishesAt(ops: seq<Op>, d: nat) {
    d < |ops| && ops[d].Finish? && forall i :: 0 <= i < d ==> ops[i].Offer?
  }

  lemma {:induction false} FinishedFrom(maxBytes: int, ops: seq<Op>, d: nat, n: nat)
    requires AllProper(ops) && FinishesAt(ops, d) && n <= |ops|
    ensures Run(FreshLog(maxBytes), ops[..n]).status != Running <==> d < n
    decreases n
  {
    if n > 0 {
      assert ops[..n][..n - 1] == ops[..n - 1];
      FinishedFrom(maxBytes, ops, d, n - 1);
    }
  }

  /** The record and its two outputs after `n` calls, in terms of what was offered. */
  lemma {:induction false} AfterCalls(maxBytes: int, ops: seq<Op>, n: nat)
    requires AllProper(ops) && NoEmptyOffer(ops) && n <= |ops|
    ensures OfferedBytes(ops) == OfferedBytes(ops[..n]) + OfferedBytes(ops[n..])
    ensures var l := Run(FreshLog(maxBytes), ops[..n]);
            var offered, cap := OfferedBytes(ops[..n]), ClampMax(maxBytes);
            && (l.truncated <==> |offered| > cap)
            && Tagged(l.chunks) == offered[..Min(|offered|, cap)]
            && |OutputOf(Stdout, l.chunks)| + |OutputOf(Stderr, l.chunks)| == Min(|offered|, cap)
            && OutputOf(Stdout, l.chunks) == Project(Stdout, Tagged(l.chunks))
            && OutputOf(Stderr, l.chunks) == Project(Stderr, Tagged(l.chunks))
  {
    hide Run;
    hide OfferedBytes;
    var l := Run(FreshLog(maxBytes), ops[..n]);
    assert ops == ops[..n] + ops[n..];
    OfferedConcat(ops[..n], ops[n..]);
    CapKeepsPrefix(maxBytes, ops[..n]);
    TruncatedIffOverCap(maxBytes, ops[..n]);
    OutputIsProjection(Stdout, l.chunks);
    OutputIsProjection(Stderr, l.chunks);
    OfferedKinds(ops[..n]);
    ProjectLengths(Tagged(l.chunks));
  }

  lemma {:induction false} OfferedKinds(ops: seq<Op>)
    requires AllProper(ops)
    ensures forall i :: 0 <= i < |OfferedBytes(ops)| ==> OfferedBytes(ops)[i].0 != Done
    decreases |ops|
  {
    if ops != [] {
      OfferedKinds(ops[..|ops| - 1]);
    }
  }

  lemma {:induction false} OffersSomething(ops: seq<Op>, j: nat)
    requires NoEmptyOffer(ops) && j < |ops| && ops[j].Offer?
    ensures OfferedBytes(ops) != []
    decreases |ops|
  {
    if j < |ops| - 1 {
      OffersSomething(ops[..|ops| - 1], j);
    }
  }

  /**
   For any history of a drained record, every reply that says finished is final if and only if nothing was
   appended after the first finish, or the output was already truncated by then.
   */
  lemma {:induction false} FinishedRepliesFinalIff(maxBytes: int, ops: seq<Op>, d: nat)
    requires AllProper(ops) && NoEmptyOffer(ops) && FinishesAt(ops, d)
    ensures FinishedRepliesAreFinal(maxBytes, ops) <==>
            Run(FreshLog(maxBytes), ops[..d]).truncated || forall j :: d < j < |ops| ==> ops[j].Finish?
  {
    hide Run;
    hide OfferedBytes;
    if Run(FreshLog(maxBytes), ops[..d]).truncated || forall j :: d < j < |ops| ==> ops[j].Finish? {
      forall status: nat, output: nat |
        status <= output <= |ops| && ReadReply(maxBytes, ops, status, output).status != Running
        ensures ReadReply(maxBytes, ops, status, output) == ReadReply(maxBytes, ops, |ops|, |ops|) {
        FinishedFrom(maxBytes, ops, d, status);
        assert ops[..|ops|] == ops;
        if Run(FreshLog(maxBytes), ops[..d]).truncated {
          TruncatedReplyIsFinal(maxBytes, ops, d, status, output);
        } else {
          FinishedReplyIsFinal(maxBytes, ops, status, output);
        }
      }
    } else {
      var j :| d < j < |ops| && ops[j].Offer?;
      LateAppendIsMissed(maxBytes, ops, d, j);
    }
  }

  /** A truncated record keeps the output it has, whatever is appended. */
  lemma {:induction false} TruncatedOutputStays(maxBytes: int, ops: seq<Op>, d: nat, n: nat)
    requires AllProper(ops) && NoEmptyOffer(ops) && d <= n <= |ops|
    requires Run(FreshLog(maxBytes), ops[..d]).truncated
    ensures var l, l' := Run(FreshLog(maxBytes), ops[..d]), Run(FreshLog(maxBytes), ops[..n]);
            && l'.truncated
            && OutputOf(Stdout, l'.chunks) == OutputOf(Stdout, l.chunks)
            && OutputOf(Stderr, l'.chunks) == OutputOf(Stderr, l.chunks)
  {
    hide Run;
    hide OfferedBytes;
    hide Project;
    hide OutputOf;
    hide Tagged;
    var later := ops[..n];
    assert later[..d] == ops[..d];
    AfterCalls(maxBytes, later, d);
    AfterCalls(maxBytes, ops, n);
    var cap := ClampMax(maxBytes);
    assert OfferedBytes(later)[..cap] == OfferedBytes(ops[..d])[..cap];
  }

  lemma {:induction false} TruncatedReplyIsFinal(maxBytes: int, ops: seq<Op>, d: nat, status: nat, output: nat)
    requires AllProper(ops) && NoEmptyOffer(ops) && FinishesAt(ops, d) && d < status <= output <= |ops|
    requires Run(FreshLog(maxBytes), ops[..d]).truncated
    ensures ReadReply(maxBytes, ops, status, output) == ReadReply(maxBytes, ops, |ops|, |ops|)
  {
    hide Run;
    hide OutputOf;
    var empty := FreshLog(maxBytes);
    assert ops[..|ops|] == ops && ops[..status] + ops[status..] == ops;
    FinishedFrom(maxBytes, ops, d, status);
    RunConcat(empty, ops[..status], ops[status..]);
    RunExtends(Run(empty, ops[..status]), ops[status..]);
    TruncatedOutputStays(maxBytes, ops, d, status);
    TruncatedOutputStays(maxBytes, ops, d, output);
    TruncatedOutputStays(maxBytes, ops, d, |ops|);
  }

  lemma {:induction false} LateAppendIsMissed(maxBytes: int, ops: seq<Op>, d: nat, j: nat)
    requires AllProper(ops) && NoEmptyOffer(ops) && FinishesAt(ops, d)
    requires !Run(FreshLog(maxBytes), ops[..d]).truncated && d < j < |ops| && ops[j].Offer?
    ensures !FinishedRepliesAreFinal(maxBytes, ops)
  {
    hide Run;
    hide OfferedBytes;
    hide OutputOf;
    hide Project;
    hide Tagged;
    hide ClampMax;
    hide Tag;
    var n := d + 1;
    assert ops[..|ops|] == ops && ops[..n][..d] == ops[..d];
    FinishedFrom(maxBytes, ops, d, n);
    AfterCalls(maxBytes, ops, d);
    AfterCalls(maxBytes, ops, n);
    AfterCalls(maxBytes, ops[..n], d);
    assert ops[..n][d..] == [ops[d]];
    OfferedOne(ops[d]);
    OffersSomething(ops[n..], j - n);
    AfterCalls(maxBytes, ops, |ops|);
    assert ReadReply(maxBytes, ops, n, n) != ReadReply(maxBytes, ops, |ops|, |ops|);
  }

  /**
   What a reply holds, whatever the two reads fall between and whatever the frames: of each stream a prefix of
   what the agent sent on it.
   */
  lemma {:induction false} ReplyHoldsPrefixes(maxBytes: int, frames: seq<Frame>, now: int, status: nat, output: nat)
    requires status <= output <= |DrainOps(frames, now)|
    ensures var reply := ReadReply(maxBytes, DrainOps(frames, now), status, output);
            reply.stdout <= BytesOf(false, frames) && reply.stderr <= BytesOf(true, frames)
  {
    hide Run;
    hide DrainOps;
    hide OfferedBytes;
    hide BytesOf;
    var ops := DrainOps(frames, now);
    DrainFirstFinish(frames, now);
    DrainOffers(frames, now);
    AfterCalls(maxBytes, ops, output);
    var offered := OfferedBytes(ops);
    var kept := Tagged(Run(FreshLog(maxBytes), ops[..output]).chunks);
    assert kept == offered[..|kept|];
    ProjectPrefix(Stdout, offered, |kept|);
    ProjectPrefix(Stderr, offered, |kept|);
  }

  /**
   A reply that says finished, for whatever an agent's stream delivered: completed with the code of the stream's
   Done, or errored with -1 if it had none; min(all bytes, cap) of output; truncated exactly if that is not all.
   */
  lemma {:induction false} FinishedReplySays(maxBytes: int, frames: seq<Frame>, now: int, status: nat, output: nat)
    requires OnlyLastDone(frames) && status <= output <= |DrainOps(frames, now)|
    requires ReadReply(maxBytes, DrainOps(frames, now), status, output).status != Running
    ensures var reply := ReadReply(maxBytes, DrainOps(frames, now), status, output);
            var total := |BytesOf(false, frames)| + |BytesOf(true, frames)|;
            && |reply.stdout| + |reply.stderr| == Min(total, ClampMax(maxBytes))
            && (reply.truncated <==> total > ClampMax(maxBytes))
            && (match FirstDone(frames)
                case Some(code) => reply.status == Completed && reply.exitCode == code
                case None => reply.status == Errored && reply.exitCode == -1)
  {
    hide Run;
    hide DrainOps;
    hide OutputOf;
    hide BytesOf;
    AgentReplyIsFinal(maxBytes, frames, now, status, output);
    DrainKeepsPrefixes(maxBytes, frames, now);
    DrainFinishes(maxBytes, frames, now);
  }

  /** It rests on Done being last: a record takes appends after its end, and a finished reply can miss them. */
  lemma {:induction false} DataAfterDoneIsMissed()
    ensures var ops := DrainOps([Frame([], [], true, 0), Frame([7], [], false, 0)], 0);
            && Run(FreshLog(1), ops[..1]).status == Completed && Run(FreshLog(1), ops[..1]).outputBytes == 0
            && Run(FreshLog(1), ops).outputBytes == 1
  {
    var first, second := Frame([], [], true, 0), Frame([7], [], false, 0);
    assert [first, second][..1] == [first] && [first][..0] == [];
    var finish, offer := Finish(Completed, 0, "", 0), Offer(Stdout, [7]);
    assert FrameOps(first, 0) == [finish] && FrameOps(second, 0) == [offer];
    assert FramesOps([first], 0) == [finish];
    assert FirstDone([]) == None && FirstDone([first]) == Some(0);
    assert FirstDone([first, second]) == Some(0);
    assert FramesOps([first, second], 0) == [finish] + [offer];
    var ops := DrainOps([first, second], 0);
    assert ops == [finish, offer];
    assert ops[..1] == [finish];
    RunOne(FreshLog(1), finish);
    assert Run(FreshLog(1), ops) == Step(Run(FreshLog(1), [finish]), offer);
  }

  /** Hence the record's only Done chunk is its last. */
  lemma {:induction false} DoneIsLast(maxBytes: int, frames: seq<Frame>, now: int)
    requires OnlyLastDone(frames)
    ensures var l := Run(FreshLog(maxBytes), DrainOps(frames, now));
            l.chunks != [] && OnlyDoneAt(l.chunks, |l.chunks| - 1)
  {
    hide DrainOps;
    var ops := DrainOps(frames, now);
    StreamFinishesLast(frames, now);
    DrainFirstFinish(frames, now);
    var front := ops[..|ops| - 1];
    FirstFinishIsFirst(front);
    FirstFinishWins(maxBytes, front);
    RunWellFormed(maxBytes, front);
  }
}
