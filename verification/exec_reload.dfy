/**
 Resuming a stream after memory has lost the exec: the registry then serves the record its row reloads as,
 whose chunks are numbered anew, at most one per stream and Done.
 */
module ExecReload {
  import opened ExecTypes
  import opened ExecLog
  import opened ExecRows
  import opened Decimal
  import opened SseWire
  import opened SseSession

  /** The log of the record a terminal row reloads as. */
  lemma {:induction false} ReloadedLog(row: Row)
    requires ParseStatus(row.status) != Running
    ensures var log := LoadRow(row).chunks;
            && FinishedLog(log) && log[|log| - 1].exitCode == OrZero(row.exitCode)
            && |log| == 1 + (if row.stdout == [] then 0 else 1) + (if row.stderr == [] then 0 else 1)
  {
    LoadedShape(row.maxOutputBytes, ParseStatus(row.status), OrZero(row.exitCode), row.stdout, row.stderr,
                row.truncated, OrEmpty(row.completionErr), OrZeroTime(row.completedAt));
    var log := LoadRow(row).chunks;
    assert forall i :: 0 <= i < |log| ==> Canonical(log[i]);
  }

  /** One unbroken connection to a reloaded record brings whatever its log has from the client's position on. */
  lemma {:induction false} ReloadedStream(kind: ReaderKind, row: Row, c: Client, v: Visit)
    requires ParseStatus(row.status) != Running && v.cut == None
    ensures var log := LoadRow(row).chunks;
            Connect(kind, log, c, v).got == c.got + log[Min(ResumeFrom(c.lastId), |log|)..]
  {
    hide FinishedLog;
    hide LoadRow;
    hide Connect;
    hide ResumeFrom;
    ReloadedLog(row);
    var log := LoadRow(row).chunks;
    var n := ConnectBrings(kind, log, c, v);
    var start := Min(ResumeFrom(c.lastId), |log|);
    assert log[start..start + n] == log[start..];
  }

  /** What a client was promised: both outputs, byte for byte, and one Done, last, with the exit code. */
  ghost predicate Complete(l: Log, got: seq<Chunk>) {
    && OutputOf(Stdout, got) == OutputOf(Stdout, l.chunks) && OutputOf(Stderr, got) == OutputOf(Stderr, l.chunks)
    && got != [] && OnlyDoneAt(got, |got| - 1) && got[|got| - 1].exitCode == l.exitCode
  }

  /** Two sequences of chunks carry the same bytes of each stream. */
  ghost predicate SameBytes(a: seq<Chunk>, b: seq<Chunk>) {
    OutputOf(Stdout, a) == OutputOf(Stdout, b) && OutputOf(Stderr, a) == OutputOf(Stderr, b)
  }

  lemma {:induction false} OutputConcat(kind: ChunkKind, a: seq<Chunk>, b: seq<Chunk>)
    ensures OutputOf(kind, a + b) == OutputOf(kind, a) + OutputOf(kind, b)
    decreases |b|
  {
    if b == [] {
      assert a + b == a;
    } else {
      assert (a + b)[..|a + b| - 1] == a + b[..|b| - 1];
      OutputConcat(kind, a, b[..|b| - 1]);
    }
  }

  /** The front of one sequence, continued with the rest of another that has the same bytes in all. */
  lemma {:induction false} SpliceIff(live: seq<Chunk>, loaded: seq<Chunk>, n: nat, m: nat)
    requires n <= |live| && m <= |loaded| && SameBytes(loaded, live)
    ensures SameBytes(live[..n] + loaded[m..], live) <==> SameBytes(live[..n], loaded[..m])
  {
    hide OutputOf;
    assert loaded == loaded[..m] + loaded[m..];
    forall kind
      ensures OutputOf(kind, loaded) == OutputOf(kind, loaded[..m]) + OutputOf(kind, loaded[m..])
      ensures OutputOf(kind, live[..n] + loaded[m..]) == OutputOf(kind, live[..n]) + OutputOf(kind, loaded[m..])
    {
      OutputConcat(kind, loaded[..m], loaded[m..]);
      OutputConcat(kind, live[..n], loaded[m..]);
    }
    forall kind | kind != Done
      ensures OutputOf(kind, live[..n] + loaded[m..]) == OutputOf(kind, live) <==>
              OutputOf(kind, live[..n]) == OutputOf(kind, loaded[..m])
    {
      CancelRight(OutputOf(kind, live[..n]), OutputOf(kind, loaded[..m]), OutputOf(kind, loaded[m..]));
    }
  }

  lemma {:induction false} CancelRight(a: seq<byte>, b: seq<byte>, c: seq<byte>)
    ensures a + c == b + c <==> a == b
  {
    if a + c == b + c {
      assert a == (a + c)[..|a + c| - |c|] && b == (b + c)[..|b + c| - |c|];
    }
  }

  /**
   A client that had the first `from` chunks of a finished exec when memory lost it, and reconnects to the
   reloaded record without a break: Done reaches it if and only if its position lies within the reloaded log,
   and it is complete if and only if, besides, the chunks it had carry the bytes of those it skips.
   */
  lemma {:induction false} ReloadCompletesIff(kind: ReaderKind, row: Row, l: Log, c: Client, v: Visit)
    requires FinishedLog(l.chunks) && l.status != Running && v.cut == None
    requires InStep(l.chunks, 0, c) && |c.got| < |l.chunks|
    ensures var from, loaded := |c.got|, LoadRow(FinalRow(row, l)).chunks;
            var t := Connect(kind, loaded, c, v);
            && ((exists d :: d in t.got && d.kind == Done) <==> from < |loaded|)
            && (Complete(l, t.got) <==> from < |loaded| && SameBytes(l.chunks[..from], loaded[..from]))
  {
    hide OutputOf;
    hide LoadRow;
    hide FinalRow;
    hide Connect;
    hide ResumeFrom;
    StatusRoundTrip(l.status);
    var stored := FinalRow(row, l);
    assert stored.status == StatusText(l.status) && stored.exitCode == Some(l.exitCode) by { FinalColumns(row, l); }
    StoredFields(row, l);
    ReloadedLog(stored);
    ReloadedStream(kind, stored, c, v);
    var from, live, loaded := |c.got|, l.chunks, LoadRow(stored).chunks;
    var t := Connect(kind, loaded, c, v);
    var m := Min(from, |loaded|);
    assert c.got == live[..from] && t.got == live[..from] + loaded[m..];
    hide FinishedLog;
    SpliceIff(live, loaded, from, m);
    SpliceDone(live, loaded, from);
  }

  /** The spliced sequence ends in the second log's Done, if it reaches that far, and has no other. */
  lemma {:induction false} SpliceDone(live: seq<Chunk>, loaded: seq<Chunk>, from: nat)
    requires FinishedLog(live) && FinishedLog(loaded) && from < |live|
    ensures var got := live[..from] + loaded[Min(from, |loaded|)..];
            && (from < |loaded| ==> OnlyDoneAt(got, |got| - 1) && got[|got| - 1] == loaded[|loaded| - 1])
            && ((exists d :: d in got && d.kind == Done) <==> from < |loaded|)
            && (from >= |loaded| ==> forall i :: 0 <= i < |got| ==> got[i].kind != Done)
  {
    var got := live[..from] + loaded[Min(from, |loaded|)..];
    assert forall i :: 0 <= i < from ==> got[i] == live[i];
    if from < |loaded| {
      assert forall i :: from <= i < |got| ==> got[i] == loaded[i];
      assert got[|got| - 1] in got;
    }
  }

  lemma {:induction false} FinalColumns(row: Row, l: Log)
    ensures var stored := FinalRow(row, l);
            && stored.status == StatusText(l.status) && stored.exitCode == Some(l.exitCode)
            && stored.stdout == OutputOf(Stdout, l.chunks) && stored.stderr == OutputOf(Stderr, l.chunks)
  {
  }

  /** Nor does reconnecting again help a client whose position lies beyond the reloaded log. */
  lemma {:induction false} ReloadStrands(kind: ReaderKind, row: Row, c: Client, visits: seq<Visit>)
    requires ParseStatus(row.status) != Running && ResumeFrom(c.lastId) >= |LoadRow(row).chunks|
    requires NeverForgets(kind, LoadRow(row).chunks, c, visits)
    ensures ConnectAll(kind, LoadRow(row).chunks, c, visits).got == c.got
  {
    hide ConnectAll;
    hide NeverForgets;
    hide LoadRow;
    ReloadedLog(row);
    BeyondTheEnd(kind, LoadRow(row).chunks, c, visits);
  }

  /**
   A crash while the exec runs: the restarted adapter serves one chunk, Done with -1, so a client is told of
   the end if and only if it had received nothing.
   */
  lemma {:induction false} RestartTellsIff(kind: ReaderKind, row: Row, now: int, c: Client, v: Visit)
    requires row.status == "running" && row.stdout == [] && row.stderr == [] && v.cut == None
    ensures var log := LoadRow(ReconcileRow(row, now)).chunks;
            && log == [Chunk(0, Done, [], -1)]
            && Connect(kind, log, c, v).got == c.got + if ResumeFrom(c.lastId) == 0 then log else []
  {
    hide Connect;
    hide ResumeFrom;
    ReloadedStream(kind, ReconcileRow(row, now), c, v);
  }

  /**
   A record reloaded while its row still says running is running too, without an owner: its log has no Done,
   and as nothing is sent to its channels, no connection from any position ever writes one, however long its
   heartbeats go on.
   */
  lemma {:induction false} RunningRowNeverEnds(row: Row, from: nat, beats: seq<nat>)
    requires ParseStatus(row.status) == Running
    ensures var l := LoadRow(row);
            var written := ChunksOf(LoopItems(Replay(l.chunks, from), [], beats));
            && l.status == Running && written == l.chunks[Min(from, |l.chunks|)..]
            && forall i :: 0 <= i < |written| ==> written[i].kind != Done
  {
    hide LoopItems;
    hide ChunksOf;
    hide LoadRow;
    hide Replay;
    hide UpToDone;
    RunningLog(row);
    var log := LoadRow(row).chunks;
    ReplayIsSlice(log, from);
    var queue := log[Min(from, |log|)..];
    assert Replay(log, from) == queue;
    LoopDelivers(queue, [], beats);
    assert queue + Flat([]) == queue;
    UpToDoneIsAll(queue);
  }

  lemma {:induction false} RunningLog(row: Row)
    requires ParseStatus(row.status) == Running
    ensures var l := LoadRow(row);
            && l.status == Running && Numbered(l.chunks) && |l.chunks| <= 2
            && forall i :: 0 <= i < |l.chunks| ==> l.chunks[i].kind != Done
  {
    LoadedShape(row.maxOutputBytes, ParseStatus(row.status), OrZero(row.exitCode), row.stdout, row.stderr,
                row.truncated, OrEmpty(row.completionErr), OrZeroTime(row.completedAt));
  }

  /**
   Three chunks of one byte: a client that had two of them when memory lost the exec resumes at 2 in a log of
   length 2. It never gets the third byte or Done, however often it reconnects.
   */
  lemma {:induction false} ReloadLosesTheRest(row: Row, visits: seq<Visit>) returns (live: Log, c: Client)
    ensures live == Run(FreshLog(100), [Offer(Stdout, [1]), Offer(Stdout, [2]), Offer(Stdout, [3]),
                                        Finish(Completed, 0, "", 0)])
    ensures FinishedLog(live.chunks) && |live.chunks| == 4
    ensures c == Client(live.chunks[..2], "1") && InStep(live.chunks, 0, c)
    ensures var got := ConnectAll(Remembering, LoadRow(FinalRow(row, live)).chunks, c, visits).got;
            got == c.got && !Complete(live, got)
  {
    hide ResumeFrom;
    hide ConnectAll;
    hide LoadRow;
    hide FinalRow;
    hide OutputOf;
    hide Run;
    live := ThreeBytes();
    c := Client(live.chunks[..2], "1");
    assert ResumeFrom("1") == 2 by { OneParses(); }
    var stored := FinalRow(row, live);
    StatusRoundTrip(live.status);
    FinalColumns(row, live);
    ReloadedLog(stored);
    RememberingNeverForgets(LoadRow(stored).chunks, c, visits);
    ReloadStrands(Remembering, stored, c, visits);
    assert c.got[|c.got| - 1].kind == Stdout;
  }

  lemma {:induction false} OneParses()
    ensures ResumeFrom("1") == 2
  {
    assert "1"[..0] == "";
    assert Value("1") == 1;
  }

  lemma {:induction false} RunSnoc(l: Log, ops: seq<Op>, op: Op)
    ensures Run(l, ops + [op]) == Step(Run(l, ops), op)
  {
    assert (ops + [op])[..|ops|] == ops;
  }

  lemma {:induction false} ThreeBytes() returns (live: Log)
    ensures live == Run(FreshLog(100), [Offer(Stdout, [1]), Offer(Stdout, [2]), Offer(Stdout, [3]),
                                        Finish(Completed, 0, "", 0)])
    ensures live.status == Completed
    ensures live.chunks == [Chunk(0, Stdout, [1], 0), Chunk(1, Stdout, [2], 0), Chunk(2, Stdout, [3], 0),
                            Chunk(3, Done, [], 0)]
    ensures OutputOf(Stdout, live.chunks) == [1, 2, 3] && OutputOf(Stderr, live.chunks) == []
  {
    hide Run;
    hide OutputOf;
    var one, two, three := Offer(Stdout, [1]), Offer(Stdout, [2]), Offer(Stdout, [3]);
    var end := Finish(Completed, 0, "", 0);
    var l0 := FreshLog(100);
    RunNothing(l0);
    RunSnoc(l0, [], one);
    RunSnoc(l0, [one], two);
    RunSnoc(l0, [one, two], three);
    RunSnoc(l0, [one, two, three], end);
    assert [] + [one] == [one] && [one] + [two] == [one, two] && [one, two] + [three] == [one, two, three];
    assert [one, two, three] + [end] == [one, two, three, end];
    var l1, l2, l3 := Run(l0, [one]), Run(l0, [one, two]), Run(l0, [one, two, three]);
    live := Run(l0, [one, two, three, end]);
    AppendByte(l0, 1);
    AppendByte(l1, 2);
    AppendByte(l2, 3);
    hide AppendLog;
    var c0, c1, c2 := Chunk(0, Stdout, [1], 0), Chunk(1, Stdout, [2], 0), Chunk(2, Stdout, [3], 0);
    var c3 := Chunk(3, Done, [], 0);
    assert l1.chunks == [c0] && l1.nextSeq == 1;
    assert l2.chunks == [c0, c1] && l2.nextSeq == 2;
    assert l3.chunks == [c0, c1, c2] && l3.nextSeq == 3;
    assert live.chunks == [c0, c1, c2, c3];
    FourOutputs(Stdout, live.chunks);
    FourOutputs(Stderr, live.chunks);
  }

  lemma {:induction false} AppendByte(l: Log, b: byte)
    requires l.outputBytes < l.maxBytes
    ensures AppendLog(l, Stdout, [b]) ==
            l.(chunks := l.chunks + [Chunk(l.nextSeq, Stdout, [b], 0)], nextSeq := l.nextSeq + 1,
               outputBytes := l.outputBytes + 1)
  {
    assert [b][..1] == [b];
  }

  lemma {:induction false} FourOutputs(kind: ChunkKind, log: seq<Chunk>)
    requires kind != Done && log == [Chunk(0, Stdout, [1], 0), Chunk(1, Stdout, [2], 0), Chunk(2, Stdout, [3], 0),
                                     Chunk(3, Done, [], 0)]
    ensures OutputOf(kind, log) == if kind == Stdout then [1, 2, 3] else []
  {
    hide OutputOf;
    assert log == log[..3] + [log[3]] && log[..3] == log[..2] + [log[2]] && log[..2] == log[..1] + [log[1]];
    assert log[..1] == [] + [log[0]];
    NoOutput(kind);
    OutputSnoc(kind, [], log[0]);
    OutputSnoc(kind, log[..1], log[1]);
    OutputSnoc(kind, log[..2], log[2]);
    OutputSnoc(kind, log[..3], log[3]);
  }
}
