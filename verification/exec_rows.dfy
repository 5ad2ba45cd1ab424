/** Rows of the `execs` table, and what storing and reloading a record keeps. */
module ExecRows {
  import opened ExecTypes
  import opened ExecLog

  datatype Row = Row(
    sandboxID: string,
    command: string,
    cwd: string,
    environment: map<string, string>,
    background: bool,
    maxOutputBytes: int,
    status: string,
    exitCode: Option<int32>,
    stdout: seq<byte>,
    stderr: seq<byte>,
    truncated: bool,
    completionErr: Option<string>,
    startedAt: int,
    completedAt: Option<int>)

  function StatusText(s: Status): string {
    match s case Running => "running" case Completed => "completed" case Errored => "errored"
  }

  function ParseStatus(s: string): Status {
    if s == "completed" then Completed else if s == "errored" then Errored else Running
  }

  function NullIfEmpty(s: string): Option<string> {
    if s == "" then None else Some(s)
  }

  function OrZero(code: Option<int32>): int32 {
    match code case Some(c) => c case None => 0
  }

  function OrEmpty(s: Option<string>): string {
    match s case Some(t) => t case None => ""
  }

  function OrZeroTime(t: Option<int>): int {
    match t case Some(n) => n case None => 0
  }

  /** The final UPDATE writes these columns and no others. */
  function FinalRow(row: Row, l: Log): Row {
    row.(status := StatusText(l.status),
         exitCode := Some(l.exitCode),
         stdout := OutputOf(Stdout, l.chunks),
         stderr := OutputOf(Stderr, l.chunks),
         truncated := l.truncated,
         completionErr := NullIfEmpty(l.completionErr),
         completedAt := Some(l.completedAt))
  }

  /** A row as it is inserted: running, with a valid cap, and nothing of its end stored. */
  predicate FreshRow(row: Row) {
    && row.status == "running" && row.exitCode == None && row.completionErr == None && row.completedAt == None
    && row.stdout == [] && row.stderr == [] && !row.truncated
    && 0 < row.maxOutputBytes <= MAX_OUTPUT_BYTES_HARD
  }

  /** What startup does to a row left running. */
  function StaleRow(row: Row, now: int): Row {
    row.(status := "errored", exitCode := Some(-1), completionErr := Some("adapter_restarted"),
         completedAt := Some(now))
  }

  function ReconcileRow(row: Row, now: int): Row {
    if row.status == "running" then StaleRow(row, now) else row
  }

  function LoadRow(row: Row): Log {
    LoadLog(row.maxOutputBytes, ParseStatus(row.status), OrZero(row.exitCode), row.stdout, row.stderr,
            row.truncated, OrEmpty(row.completionErr), OrZeroTime(row.completedAt))
  }

  function Join(words: seq<string>): string {
    if words == [] then "" else if |words| == 1 then words[0] else words[0] + " " + Join(words[1..])
  }

  /** The words of a command are kept in order, with one space between each two. */
  lemma {:induction false} JoinSplits(a: seq<string>, b: seq<string>)
    requires a != [] && b != []
    ensures Join(a + b) == Join(a) + " " + Join(b)
    ensures |a| == 1 ==> Join(a) == a[0]
    decreases |a|
  {
    assert (a + b)[1..] == a[1..] + b && (a + b)[0] == a[0];
    if |a| == 1 {
      assert a[1..] + b == b;
    } else {
      JoinSplits(a[1..], b);
      assert Join(a) == a[0] + " " + Join(a[1..]);
    }
  }

  /** A reloaded record's command: the row keeps one string. */
  function LoadedCommand(row: Row): seq<string> {
    [row.command]
  }

  /** A command survives the row exactly when it is one string, as the handler's are. */
  lemma {:induction false} CommandSurvivesIff(words: seq<string>)
    ensures [Join(words)] == words <==> |words| == 1
  {
    if |words| == 1 {
      assert words == [words[0]];
    }
  }

  lemma {:induction false} StatusRoundTrip(s: Status)
    ensures ParseStatus(StatusText(s)) == s
  {
  }

  /**
   A row left running reloads as errored with -1 and the reason, with no output beyond what it had; any other
   row is left alone.
   */
  lemma {:induction false} StaleReloads(row: Row, now: int)
    ensures var after := ReconcileRow(row, now);
            if row.status == "running" then
              && after == row.(status := "errored", exitCode := Some(-1),
                               completionErr := Some("adapter_restarted"), completedAt := Some(now))
              && LoadRow(after).status == Errored && LoadRow(after).exitCode == -1
              && LoadRow(after).completionErr == "adapter_restarted"
            else after == row
  {
  }

  lemma {:induction false} StoredFields(row: Row, l: Log)
    ensures var loaded := LoadRow(FinalRow(row, l));
            && loaded.status == l.status && loaded.exitCode == l.exitCode && loaded.truncated == l.truncated
            && loaded.completionErr == l.completionErr && loaded.completedAt == l.completedAt
            && loaded.maxBytes == row.maxOutputBytes
            && OutputOf(Stdout, loaded.chunks) == OutputOf(Stdout, l.chunks)
            && OutputOf(Stderr, loaded.chunks) == OutputOf(Stderr, l.chunks)
            && loaded.outputBytes == |OutputOf(Stdout, l.chunks)| + |OutputOf(Stderr, l.chunks)|
    ensures var stored := FinalRow(row, l);
            && (stored.status == "running" <==> l.status == Running)
            && (stored.status == "completed" <==> l.status == Completed)
            && (stored.status == "errored" <==> l.status == Errored)
            && (stored.completionErr == None <==> l.completionErr == "")
  {
    hide OutputOf;
    StatusRoundTrip(l.status);
    LoadedOutput(row.maxOutputBytes, l.status, l.exitCode, OutputOf(Stdout, l.chunks), OutputOf(Stderr, l.chunks),
                 l.truncated, l.completionErr, l.completedAt);
  }

  /**
   Storing a finished record and reloading it keeps its output, status, exit code, flags, byte count and
   error; the rebuilt record satisfies the record invariant with one Done, last; and storing it again
   writes the same row. The command it was registered with comes back exactly when it was one string.
   */
  lemma {:induction false} PersistThenReload(row: Row, command: seq<string>, maxBytes: int, ops: seq<Op>)
    requires AllProper(ops) && row.maxOutputBytes == ClampMax(maxBytes) && row.command == Join(command)
    requires Run(FreshLog(maxBytes), ops).status != Running
    ensures var l := Run(FreshLog(maxBytes), ops);
            var stored := FinalRow(row, l);
            var loaded := LoadRow(stored);
            && OutputOf(Stdout, loaded.chunks) == OutputOf(Stdout, l.chunks)
            && OutputOf(Stderr, loaded.chunks) == OutputOf(Stderr, l.chunks)
            && loaded.status == l.status && loaded.exitCode == l.exitCode && loaded.truncated == l.truncated
            && loaded.completionErr == l.completionErr && loaded.completedAt == l.completedAt
            && loaded.outputBytes == l.outputBytes && loaded.maxBytes == l.maxBytes
            && WellFormed(loaded) && DoneMatchesStatus(loaded) && OnlyDoneAt(loaded.chunks, |loaded.chunks| - 1)
            && FinalRow(stored, loaded) == stored
            && (LoadedCommand(stored) == command <==> |command| == 1)
  {
    hide Run;
    hide OutputOf;
    hide DoneMatchesStatus;
    hide OnlyDoneAt;
    hide Numbered;
    var l := Run(FreshLog(maxBytes), ops);
    RunWellFormed(maxBytes, ops);
    RunExtends(FreshLog(maxBytes), ops);
    RunCanonical(maxBytes, ops);
    forall i | 0 <= i < |l.chunks| && l.chunks[i].kind == Done ensures l.chunks[i].data == [] {
      assert l.chunks[i] in l.chunks;
    }
    TaggedLength(l.chunks);
    StoredFields(row, l);
    LoadedWellFormed(row.maxOutputBytes, l.status, l.exitCode, OutputOf(Stdout, l.chunks), OutputOf(Stderr, l.chunks),
                     l.truncated, l.completionErr, l.completedAt);
    StatusRoundTrip(l.status);
    CommandSurvivesIff(command);
  }
}
