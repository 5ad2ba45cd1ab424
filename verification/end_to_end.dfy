/** From the child's writes to what a client of the event stream decodes. */
module EndToEnd {
  import opened ExecTypes
  import opened ExecLog
  import opened Decimal
  import opened GuestPipeline
  import opened Drains
  import opened ExecRows
  import opened SseSession
  import opened ExecReload

  lemma {:induction false} ScriptLengths(script: Script)
    ensures |ScriptOf(false, script)| + |ScriptOf(true, script)| == |script|
    decreases |script|
  {
    if script != [] {
      ScriptLengths(script[1..]);
    }
  }

  /** The record left by draining what a run delivered. */
  ghost function RecordOf(t: State, maxBytes: int, now: int): Log {
    Run(FreshLog(maxBytes), DrainOps(t.drained, now))
  }

  lemma {:induction false} FirstDoneAtEnd(frames: seq<Frame>, code: int32)
    requires EndsInDone(frames, code)
    ensures FirstDone(frames) == Some(code)
  {
    DataOpsAreOffers(frames[..|frames| - 1], 0);
  }

  /**
   For every child, every interleaving of its writes with the pumps, every read size, every window and
   every cap, on an unbroken stream: the record is completed with the child's exit code, or 128 plus the number
   of the signal that ended it, or 0 if waiting for it failed; its output is a prefix of the child's stdout and
   of its stderr, min(all bytes, cap) in total, and Done is its last chunk.
   */
  lemma {:induction false} ChildToRecord(script: Script, wait: WaitStatus, window: nat, events: seq<Event>,
                                         maxBytes: int, now: int)
    requires window > 0 && Runs(Init(script, wait, window), events)
    requires Finished(Play(Init(script, wait, window), events)) && !Play(Init(script, wait, window), events).broken
    ensures var l := RecordOf(Play(Init(script, wait, window), events), maxBytes, now);
            var stdout, stderr := OutputOf(Stdout, l.chunks), OutputOf(Stderr, l.chunks);
            && l.status == Completed
            && (wait.Exited? ==> l.exitCode == wait.code) && (wait.Signaled? ==> l.exitCode == 128 + wait.sig)
            && (wait.WaitFailed? ==> l.exitCode == 0)
            && stdout <= ScriptOf(false, script) && stderr <= ScriptOf(true, script)
            && |stdout| + |stderr| == Min(|script|, ClampMax(maxBytes))
            && (l.truncated <==> |script| > ClampMax(maxBytes))
            && FinishedLog(l.chunks)
  {
    hide Runs;
    hide Play;
    hide Run;
    hide DrainOps;
    var t := Play(Init(script, wait, window), events);
    DrainedIsMerge(script, wait, window, events);
    ScriptLengths(script);
    FirstDoneAtEnd(t.drained, ExitCodeOf(wait));
    DrainFinishes(maxBytes, t.drained, now);
    DrainKeepsPrefixes(maxBytes, t.drained, now);
    RecordIsFinished(maxBytes, t.drained, now);
  }

  lemma {:induction false} RecordIsFinished(maxBytes: int, frames: seq<Frame>, now: int)
    requires AgentStream(frames)
    ensures FinishedLog(Run(FreshLog(maxBytes), DrainOps(frames, now)).chunks)
  {
    hide DrainOps;
    hide Run;
    var ops := DrainOps(frames, now);
    AgentEndsInDone(frames);
    DoneIsLast(maxBytes, frames, now);
    DrainFirstFinish(frames, now);
    RunWellFormed(maxBytes, ops);
    RunCanonical(maxBytes, ops);
    SeqNumbersFit(maxBytes, ops);
    var chunks := Run(FreshLog(maxBytes), ops).chunks;
    forall i | 0 <= i < |chunks| ensures Canonical(chunks[i]) { assert chunks[i] in chunks; }
  }

  /** When the stream broke, the record holds prefixes all the same, and is errored unless Done had come through. */
  lemma {:induction false} BrokenToRecord(script: Script, wait: WaitStatus, window: nat, events: seq<Event>,
                                          maxBytes: int, now: int)
    requires window > 0 && Runs(Init(script, wait, window), events)
    requires Finished(Play(Init(script, wait, window), events)) && Play(Init(script, wait, window), events).broken
    ensures var t := Play(Init(script, wait, window), events);
            var l := RecordOf(t, maxBytes, now);
            && OutputOf(Stdout, l.chunks) <= ScriptOf(false, script)
            && OutputOf(Stderr, l.chunks) <= ScriptOf(true, script)
            && (l.status == Completed <==> FirstDone(t.drained).Some?)
            && (l.status == Completed ==>
                  && t.drained == t.sent
                  && (wait.Exited? ==> l.exitCode == wait.code) && (wait.Signaled? ==> l.exitCode == 128 + wait.sig)
                  && (wait.WaitFailed? ==> l.exitCode == 0))
            && (l.status != Completed ==> l.status == Errored && l.exitCode == -1)
            && FinishedLog(l.chunks)
  {
    hide Runs;
    hide Play;
    hide Run;
    hide DrainOps;
    var t := Play(Init(script, wait, window), events);
    DrainedIsMerge(script, wait, window, events);
    PrefixOfStream(t.drained, t.sent, ExitCodeOf(wait));
    DrainFinishes(maxBytes, t.drained, now);
    DrainKeepsPrefixes(maxBytes, t.drained, now);
    RecordIsFinished(maxBytes, t.drained, now);
  }

  lemma {:induction false} PrefixOfStream(a: seq<Frame>, b: seq<Frame>, code: int32)
    requires a <= b && (AllData(b) || EndsInDone(b, code))
    ensures AgentStream(a)
    ensures FirstDone(a).Some? ==> FirstDone(a) == Some(code) && a == b
  {
    if a == b && EndsInDone(b, code) {
      FirstDoneAtEnd(b, code);
    } else {
      if |a| < |b| && EndsInDone(b, code) {
        assert a <= b[..|b| - 1];
      }
      assert AllData(a);
      DataOpsAreOffers(a, 0);
    }
  }

  /** A run that has finished, whether its stream broke or not. */
  ghost predicate RanOut(script: Script, wait: WaitStatus, window: nat, events: seq<Event>) {
    && window > 0 && Runs(Init(script, wait, window), events)
    && Finished(Play(Init(script, wait, window), events))
  }

  /** A run that has finished on an unbroken stream. */
  ghost predicate Undisturbed(script: Script, wait: WaitStatus, window: nat, events: seq<Event>) {
    RanOut(script, wait, window, events) && !Play(Init(script, wait, window), events).broken
  }

  /** The record a run leaves. */
  ghost function RecordAfter(script: Script, wait: WaitStatus, window: nat, events: seq<Event>,
                             maxBytes: int, now: int): Log {
    if window > 0 && Runs(Init(script, wait, window), events)
    then RecordOf(Play(Init(script, wait, window), events), maxBytes, now) else FreshLog(maxBytes)
  }

  /** What the child wrote, as far as the cap goes, and how it ended. */
  ghost predicate Tells(got: seq<Chunk>, script: Script, wait: WaitStatus, maxBytes: int) {
    && OutputOf(Stdout, got) <= ScriptOf(false, script) && OutputOf(Stderr, got) <= ScriptOf(true, script)
    && |OutputOf(Stdout, got)| + |OutputOf(Stderr, got)| == Min(|script|, ClampMax(maxBytes))
    && got != [] && OnlyDoneAt(got, |got| - 1)
    && (wait.Exited? ==> got[|got| - 1].exitCode == wait.code)
    && (wait.Signaled? ==> got[|got| - 1].exitCode == 128 + wait.sig)
    && (wait.WaitFailed? ==> got[|got| - 1].exitCode == 0)
  }

  /** Prefixes of what the child wrote, and one Done, last, with the record's code. */
  ghost predicate Reports(got: seq<Chunk>, script: Script, l: Log) {
    && OutputOf(Stdout, got) <= ScriptOf(false, script) && OutputOf(Stderr, got) <= ScriptOf(true, script)
    && got != [] && OnlyDoneAt(got, |got| - 1) && got[|got| - 1].exitCode == l.exitCode
  }

  /** Every run's record reports its child; after an unbroken stream it tells all that the cap lets through. */
  lemma {:induction false} RecordTells(script: Script, wait: WaitStatus, window: nat, events: seq<Event>,
                                       maxBytes: int, now: int)
    requires RanOut(script, wait, window, events)
    ensures var l := RecordAfter(script, wait, window, events, maxBytes, now);
            && l.status != Running && FinishedLog(l.chunks) && Reports(l.chunks, script, l)
            && (Undisturbed(script, wait, window, events) ==>
                  l.status == Completed && Tells(l.chunks, script, wait, maxBytes))
  {
    hide Runs;
    hide Play;
    hide RecordOf;
    hide OutputOf;
    var t := Play(Init(script, wait, window), events);
    if t.broken {
      BrokenToRecord(script, wait, window, events, maxBytes, now);
    } else {
      ChildToRecord(script, wait, window, events, maxBytes, now);
    }
    LastChunk(t, maxBytes, now);
  }

  /**
   The whole way, while memory keeps the record: a client of the finished exec's event stream, with heartbeats
   anywhere and connections broken anywhere, holds exactly the log up to its position if and only if no
   connection made it forget that position. If none did, unbroken connections bring it the whole log if and
   only if there are enough of them. Whoever holds the whole log holds a prefix of each of the child's outputs
   and the record's exit code at the end; if the agent's stream did not break, min(all bytes, cap) of output in
   total, and the child's exit code.
   */
  lemma {:induction false} ChildToClient(script: Script, wait: WaitStatus, window: nat, events: seq<Event>,
                                         maxBytes: int, now: int, kind: ReaderKind, visits: seq<Visit>)
    requires RanOut(script, wait, window, events)
    ensures var l := RecordAfter(script, wait, window, events, maxBytes, now);
            var c := SseSession.Client([], "");
            var t := ConnectAll(kind, l.chunks, c, visits);
            && (InStep(l.chunks, 0, t) <==> NeverForgets(kind, l.chunks, c, visits))
            && (NeverForgets(kind, l.chunks, c, visits) && Unbroken(visits) ==>
                  (t.got == l.chunks <==> |visits| >= Rounds(l.chunks, 0)))
            && (t.got == l.chunks ==> Reports(t.got, script, l))
            && (t.got == l.chunks && Undisturbed(script, wait, window, events) ==> Tells(t.got, script, wait, maxBytes))
  {
    hide RanOut;
    hide Undisturbed;
    hide RecordAfter;
    hide ConnectAll;
    hide NeverForgets;
    hide Unbroken;
    hide Reports;
    hide Tells;
    hide FinishedLog;
    hide InStep;
    var log := RecordAfter(script, wait, window, events, maxBytes, now).chunks;
    var c := SseSession.Client([], "");
    RecordTells(script, wait, window, events, maxBytes, now);
    FirstConnectionInStep(log);
    NothingLostOrRepeatedIff(kind, log, 0, c, visits);
    if NeverForgets(kind, log, c, visits) && Unbroken(visits) {
      assert ResumeFrom("") == 0;
      RebuiltIffEnoughRounds(kind, log, 0, "", visits);
      assert log[0..] == log;
    }
  }

  /**
   The whole way, when memory loses the record between two connections, to a deletion or a restart after the
   final write: a client that kept its position so far and had not seen the end goes on with what the row
   reloads as, and is told everything by one unbroken connection if and only if its position lies within the
   reloaded log and the chunks it had carry the bytes of those it skips.
   */
  lemma {:induction false} ChildToReloadedClient(script: Script, wait: WaitStatus, window: nat, events: seq<Event>,
                                                 maxBytes: int, now: int, kind: ReaderKind, visits: seq<Visit>,
                                                 row: Row, v: Visit)
    requires RanOut(script, wait, window, events) && v.cut == None
    ensures var l := RecordAfter(script, wait, window, events, maxBytes, now);
            var loaded := LoadRow(FinalRow(row, l)).chunks;
            var c := ConnectAll(kind, l.chunks, SseSession.Client([], ""), visits);
            var t := Connect(kind, loaded, c, v);
            NeverForgets(kind, l.chunks, SseSession.Client([], ""), visits) && |c.got| < |l.chunks| ==>
            && c.got == l.chunks[..|c.got|]
            && (Complete(l, t.got) <==> |c.got| < |loaded| && SameBytes(l.chunks[..|c.got|], loaded[..|c.got|]))
            && (Complete(l, t.got) ==> Reports(t.got, script, l))
            && (Complete(l, t.got) && Undisturbed(script, wait, window, events) ==>
                  Tells(t.got, script, wait, maxBytes))
  {
    hide RanOut;
    hide Undisturbed;
    hide RecordAfter;
    hide ConnectAll;
    hide Connect;
    hide NeverForgets;
    hide FinishedLog;
    hide OutputOf;
    hide LoadRow;
    hide FinalRow;
    var l := RecordAfter(script, wait, window, events, maxBytes, now);
    RecordTells(script, wait, window, events, maxBytes, now);
    FirstConnectionInStep(l.chunks);
    NothingLostOrRepeatedIff(kind, l.chunks, 0, SseSession.Client([], ""), visits);
    var c := ConnectAll(kind, l.chunks, SseSession.Client([], ""), visits);
    if NeverForgets(kind, l.chunks, SseSession.Client([], ""), visits) && |c.got| < |l.chunks| {
      ReloadCompletesIff(kind, row, l, c, v);
    }
  }

  lemma {:induction false} LastChunk(t: State, maxBytes: int, now: int)
    requires FinishedLog(RecordOf(t, maxBytes, now).chunks)
    ensures var l := RecordOf(t, maxBytes, now);
            l.chunks[|l.chunks| - 1] == Chunk(|l.chunks| - 1, Done, [], l.exitCode)
  {
    hide DrainOps;
    hide Run;
    var l := RecordOf(t, maxBytes, now);
    DrainFinishes(maxBytes, t.drained, now);
    var d: nat :| OnlyDoneAt(l.chunks, d) && l.chunks[d].exitCode == l.exitCode;
    assert l.chunks[d].kind == Done;
    assert d == |l.chunks| - 1;
  }
}
