/**
 The state of an exec record as a value, and what any history of `Append` and `finish` calls
 makes of it. The class in `exec_record.dfy` is proved against these functions.
 */
module ExecLog {
  import opened ExecTypes

  datatype Log = Log(
    maxBytes: int,
    status: Status,
    exitCode: int32,
    completionErr: string,
    completedAt: int,
    chunks: seq<Chunk>,
    nextSeq: nat,
    outputBytes: int,
    truncated: bool)

  function ClampMax(maxBytes: int): int {
    if maxBytes <= 0 || maxBytes > MAX_OUTPUT_BYTES_HARD then MAX_OUTPUT_BYTES_HARD else maxBytes
  }

  function FreshLog(maxBytes: int): Log {
    Log(ClampMax(maxBytes), Running, 0, "", 0, [], 0, 0, false)
  }

  /** A cap of 1 byte to 100 MiB is taken as given; anything else means 100 MiB. */
  lemma {:induction false} CapIsTakenIff(maxBytes: int, ops: seq<Op>)
    ensures Run(FreshLog(maxBytes), ops).maxBytes == if 0 < maxBytes <= 104857600 then maxBytes else 104857600
    ensures Run(FreshLog(maxBytes), ops).maxBytes == maxBytes <==> 0 < maxBytes <= 104857600
  {
    RunExtends(FreshLog(maxBytes), ops);
  }

  function AppendLog(l: Log, kind: ChunkKind, data: seq<byte>): Log {
    var remaining := l.maxBytes - l.outputBytes;
    if remaining <= 0 then
      l.(truncated := true)
    else
      var payload := data[..Min(|data|, remaining)];
      l.(chunks := l.chunks + [Chunk(l.nextSeq, kind, payload, 0)],
         nextSeq := l.nextSeq + 1,
         outputBytes := l.outputBytes + |payload|,
         truncated := l.truncated || |data| > remaining)
  }

  function FinishLog(l: Log, status: Status, exitCode: int32, reason: string, now: int): Log {
    if l.status != Running then l
    else
      l.(status := status, exitCode := exitCode, completionErr := reason, completedAt := now,
         chunks := l.chunks + [Chunk(l.nextSeq, Done, [], exitCode)],
         nextSeq := l.nextSeq + 1)
  }

  /** One call on a record: `Append`, or `finish` through `Complete` or `Errored`. */
  datatype Op =
    | Offer(kind: ChunkKind, data: seq<byte>)
    | Finish(status: Status, exitCode: int32, reason: string, now: int)

  function Step(l: Log, op: Op): Log {
    match op
    case Offer(kind, data) => AppendLog(l, kind, data)
    case Finish(status, exitCode, reason, now) => FinishLog(l, status, exitCode, reason, now)
  }

  /** The record after a whole history of calls. */
  function Run(l: Log, ops: seq<Op>): Log {
    if ops == [] then l else Step(Run(l, ops[..|ops| - 1]), ops[|ops| - 1])
  }

  /** Every caller in the adapter appends stdout or stderr and finishes with a terminal status. */
  ghost predicate Proper(op: Op) {
    match op
    case Offer(kind, _) => kind != Done
    case Finish(status, _, _, _) => status != Running
  }

  ghost predicate AllProper(ops: seq<Op>) {
    forall i :: 0 <= i < |ops| ==> Proper(ops[i])
  }

  /** The drain never appends an empty slice. */
  ghost predicate NoEmptyOffer(ops: seq<Op>) {
    forall i :: 0 <= i < |ops| && ops[i].Offer? ==> ops[i].data != []
  }

  lemma {:induction false} RunNothing(l: Log)
    ensures Run(l, []) == l
  {
  }

  lemma {:induction false} RunConcat(l: Log, a: seq<Op>, b: seq<Op>)
    ensures Run(l, a + b) == Run(Run(l, a), b)
    decreases |b|
  {
    if b == [] {
      assert a + b == a;
    } else {
      var b' := b[..|b| - 1];
      assert (a + b)[..|a + b| - 1] == a + b';
      RunConcat(l, a, b');
    }
  }

  // ---------------------------------------------------------------- kind-tagged bytes

  function Tag(kind: ChunkKind, data: seq<byte>): (r: seq<(ChunkKind, byte)>)
    ensures |r| == |data|
  {
    seq(|data|, i requires 0 <= i < |data| => (kind, data[i]))
  }

  /** The bytes a log holds, each with the stream it came from, in log order. */
  function Tagged(chunks: seq<Chunk>): seq<(ChunkKind, byte)> {
    if chunks == [] then []
    else Tagged(chunks[..|chunks| - 1]) + Tag(chunks[|chunks| - 1].kind, chunks[|chunks| - 1].data)
  }

  /** The bytes a history offered, each with its stream, in the order offered. */
  function OfferedBytes(ops: seq<Op>): seq<(ChunkKind, byte)> {
    if ops == [] then []
    else
      OfferedBytes(ops[..|ops| - 1]) +
      match ops[|ops| - 1] { case Offer(kind, data) => Tag(kind, data) case Finish(_, _, _, _) => [] }
  }

  /** The bytes of one stream, in order. */
  function Project(kind: ChunkKind, bs: seq<(ChunkKind, byte)>): seq<byte> {
    if bs == [] then []
    else Project(kind, bs[..|bs| - 1]) + if bs[|bs| - 1].0 == kind then [bs[|bs| - 1].1] else []
  }

  /** What `Output` returns for one stream: the data of its chunks, concatenated in chunk order. */
  function OutputOf(kind: ChunkKind, chunks: seq<Chunk>): seq<byte> {
    if chunks == [] then []
    else OutputOf(kind, chunks[..|chunks| - 1]) +
         if chunks[|chunks| - 1].kind == kind then chunks[|chunks| - 1].data else []
  }

  lemma {:induction false} ProjectConcat(kind: ChunkKind, a: seq<(ChunkKind, byte)>, b: seq<(ChunkKind, byte)>)
    ensures Project(kind, a + b) == Project(kind, a) + Project(kind, b)
    decreases |b|
  {
    if b == [] {
      assert a + b == a;
    } else {
      assert (a + b)[..|a + b| - 1] == a + b[..|b| - 1];
      ProjectConcat(kind, a, b[..|b| - 1]);
    }
  }

  lemma {:induction false} ProjectTag(kind: ChunkKind, k: ChunkKind, data: seq<byte>)
    ensures Project(kind, Tag(k, data)) == if k == kind then data else []
    decreases |data|
  {
    if data != [] {
      var t := Tag(k, data);
      assert t[..|t| - 1] == Tag(k, data[..|data| - 1]);
      ProjectTag(kind, k, data[..|data| - 1]);
      assert data == data[..|data| - 1] + [data[|data| - 1]];
    }
  }

  /** `Output` is the projection of the tagged bytes: concatenating per stream forgets nothing else. */
  lemma {:induction false} OutputIsProjection(kind: ChunkKind, chunks: seq<Chunk>)
    ensures OutputOf(kind, chunks) == Project(kind, Tagged(chunks))
    decreases |chunks|
  {
    if chunks != [] {
      var last := chunks[|chunks| - 1];
      OutputIsProjection(kind, chunks[..|chunks| - 1]);
      ProjectConcat(kind, Tagged(chunks[..|chunks| - 1]), Tag(last.kind, last.data));
      ProjectTag(kind, last.kind, last.data);
    }
  }

  lemma {:induction false} ProjectPrefix(kind: ChunkKind, bs: seq<(ChunkKind, byte)>, n: nat)
    requires n <= |bs|
    ensures Project(kind, bs[..n]) <= Project(kind, bs)
  {
    assert bs == bs[..n] + bs[n..];
    ProjectConcat(kind, bs[..n], bs[n..]);
  }

  lemma {:induction false} ProjectLengths(bs: seq<(ChunkKind, byte)>)
    requires forall i :: 0 <= i < |bs| ==> bs[i].0 != Done
    ensures |Project(Stdout, bs)| + |Project(Stderr, bs)| == |bs|
    decreases |bs|
  {
    if bs != [] {
      ProjectLengths(bs[..|bs| - 1]);
    }
  }

  // ---------------------------------------------------------------- the record invariant

  ghost predicate Numbered(chunks: seq<Chunk>) {
    forall i :: 0 <= i < |chunks| ==> chunks[i].seqNo == i
  }

  /** Kept by both constructors and every operation, whatever the arguments. */
  ghost predicate WellFormed(l: Log) {
    && Numbered(l.chunks)
    && l.nextSeq == |l.chunks|
    && l.outputBytes == |Tagged(l.chunks)|
    && l.outputBytes <= l.maxBytes
    && 0 < l.maxBytes <= MAX_OUTPUT_BYTES_HARD
  }

  /** At `d` stands the only Done chunk of the log. */
  ghost predicate OnlyDoneAt(chunks: seq<Chunk>, d: nat) {
    d < |chunks| && forall i :: 0 <= i < |chunks| ==> (chunks[i].kind == Done <==> i == d)
  }

  /** A running record has no Done chunk; a finished one has exactly one, carrying its exit code. */
  ghost predicate DoneMatchesStatus(l: Log) {
    if l.status == Running then
      forall i :: 0 <= i < |l.chunks| ==> l.chunks[i].kind != Done
    else
      exists d: nat :: OnlyDoneAt(l.chunks, d) && l.chunks[d].exitCode == l.exitCode
  }

  lemma {:induction false} StepKeepsDone(l: Log, op: Op)
    requires Numbered(l.chunks) && l.nextSeq == |l.chunks| && DoneMatchesStatus(l) && Proper(op)
    ensures DoneMatchesStatus(Step(l, op))
  {
    var l' := Step(l, op);
    if l.status != Running {
      var d: nat :| OnlyDoneAt(l.chunks, d) && l.chunks[d].exitCode == l.exitCode;
      assert OnlyDoneAt(l'.chunks, d);
    } else if l'.status != Running {
      assert OnlyDoneAt(l'.chunks, |l.chunks|);
    }
  }

  lemma {:induction false} StepKeepsWellFormed(l: Log, op: Op)
    requires WellFormed(l)
    ensures WellFormed(Step(l, op))
  {
    var l' := Step(l, op);
    if |l'.chunks| > |l.chunks| {
      assert l'.chunks[..|l'.chunks| - 1] == l.chunks;
    }
  }

  /** The record invariant holds after any history of a fresh record. */
  lemma {:induction false} RunWellFormed(maxBytes: int, ops: seq<Op>)
    ensures WellFormed(Run(FreshLog(maxBytes), ops))
    ensures AllProper(ops) ==> DoneMatchesStatus(Run(FreshLog(maxBytes), ops))
    decreases |ops|
  {
    if ops != [] {
      var ops' := ops[..|ops| - 1];
      RunWellFormed(maxBytes, ops');
      StepKeepsWellFormed(Run(FreshLog(maxBytes), ops'), ops[|ops| - 1]);
      if AllProper(ops) {
        StepKeepsDone(Run(FreshLog(maxBytes), ops'), ops[|ops| - 1]);
      }
    }
  }

  /** A Done chunk carries no data and an output chunk no exit code. */
  ghost predicate Canonical(c: Chunk) {
    if c.kind == Done then c.data == [] else c.exitCode == 0
  }

  lemma {:induction false} RunCanonical(maxBytes: int, ops: seq<Op>)
    requires AllProper(ops)
    ensures forall c | c in Run(FreshLog(maxBytes), ops).chunks :: Canonical(c)
    decreases |ops|
  {
    if ops != [] {
      RunCanonical(maxBytes, ops[..|ops| - 1]);
    }
  }

  lemma {:induction false} StepExtends(l: Log, op: Op)
    ensures l.chunks <= Step(l, op).chunks
    ensures Step(l, op).maxBytes == l.maxBytes
    ensures l.truncated ==> Step(l, op).truncated
  {
  }

  /** The log only grows, and a finished record's terminal fields are write-once. */
  lemma {:induction false} RunExtends(l: Log, ops: seq<Op>)
    ensures l.chunks <= Run(l, ops).chunks
    ensures Run(l, ops).maxBytes == l.maxBytes
    ensures l.truncated ==> Run(l, ops).truncated
    ensures l.status != Running ==>
              var r := Run(l, ops);
              && r.status == l.status && r.exitCode == l.exitCode
              && r.completionErr == l.completionErr && r.completedAt == l.completedAt
    decreases |ops|
  {
    if ops != [] {
      RunExtends(l, ops[..|ops| - 1]);
    }
  }

  /** What a history's calls were about: its appends, and its first finish as an empty Done. */
  function Entries(ops: seq<Op>): seq<(ChunkKind, seq<byte>)> {
    if ops == [] then []
    else
      var front := ops[..|ops| - 1];
      Entries(front) +
      match ops[|ops| - 1]
      case Offer(kind, data) => [(kind, data)]
      case Finish(_, _, _, _) => if exists i :: 0 <= i < |front| && front[i].Finish? then [] else [(Done, [])]
  }

  /** While nothing was cut off, the log has one entry for each call, in order: none is merged, split or left out. */
  lemma {:induction false} OneEntryPerCall(maxBytes: int, ops: seq<Op>)
    requires AllProper(ops) && !Run(FreshLog(maxBytes), ops).truncated
    ensures var chunks := Run(FreshLog(maxBytes), ops).chunks;
            && |chunks| == |Entries(ops)|
            && forall i :: 0 <= i < |chunks| ==> (chunks[i].kind, chunks[i].data) == Entries(ops)[i]
    decreases |ops|
  {
    if ops != [] {
      var front, op := ops[..|ops| - 1], ops[|ops| - 1];
      var l := Run(FreshLog(maxBytes), front);
      StepExtends(l, op);
      OneEntryPerCall(maxBytes, front);
      if op.Finish? {
        RunningIff(maxBytes, front);
      } else {
        assert op.data[..|op.data|] == op.data;
      }
    }
  }

  lemma {:induction false} RunningIff(maxBytes: int, ops: seq<Op>)
    requires AllProper(ops)
    ensures Run(FreshLog(maxBytes), ops).status == Running <==> forall i :: 0 <= i < |ops| ==> !ops[i].Finish?
    decreases |ops|
  {
    if ops != [] {
      RunningIff(maxBytes, ops[..|ops| - 1]);
    }
  }

  // ---------------------------------------------------------------- which finish wins

  /** The first Finish of a history, if there is one. */
  function FirstFinish(ops: seq<Op>): (r: Option<Op>)
    ensures r.Some? ==> r.value.Finish?
  {
    if ops == [] then None
    else
      var before := FirstFinish(ops[..|ops| - 1]);
      if before.Some? then before
      else if ops[|ops| - 1].Finish? then Some(ops[|ops| - 1])
      else None
  }

  lemma {:induction false} FirstFinishIsFirst(ops: seq<Op>)
    ensures FirstFinish(ops).None? <==> forall i :: 0 <= i < |ops| ==> ops[i].Offer?
    ensures FirstFinish(ops).Some? <==>
            exists i :: 0 <= i < |ops| && ops[i].Finish? && FirstFinish(ops) == Some(ops[i])
                        && forall j :: 0 <= j < i ==> ops[j].Offer?
    decreases |ops|
  {
    if ops != [] {
      var ops' := ops[..|ops| - 1];
      FirstFinishIsFirst(ops');
      if FirstFinish(ops').Some? {
        var i :| 0 <= i < |ops'| && ops'[i].Finish? && FirstFinish(ops') == Some(ops'[i])
                 && forall j :: 0 <= j < i ==> ops'[j].Offer?;
        assert ops[i] == ops'[i];
      } else {
        forall j | 0 <= j < |ops| - 1 ensures ops[j].Offer? { assert ops[j] == ops'[j]; }
      }
    }
  }

  /** `Complete` and `Errored` are idempotent: over any history the first one decides, later ones are lost. */
  lemma {:induction false} FirstFinishWins(maxBytes: int, ops: seq<Op>)
    requires AllProper(ops)
    ensures var r := Run(FreshLog(maxBytes), ops);
            match FirstFinish(ops)
            case None => r.status == Running && r.completionErr == ""
            case Some(f) => r.status == f.status && r.exitCode == f.exitCode
                            && r.completionErr == f.reason && r.completedAt == f.now
    decreases |ops|
  {
    if ops != [] {
      FirstFinishWins(maxBytes, ops[..|ops| - 1]);
      if FirstFinish(ops[..|ops| - 1]).Some? {
        FirstFinishIsFirst(ops[..|ops| - 1]);
      }
    }
  }

  // ---------------------------------------------------------------- the output cap

  lemma {:induction false} StepTagged(l: Log, op: Op)
    requires WellFormed(l)
    ensures op.Finish? ==> Tagged(Step(l, op).chunks) == Tagged(l.chunks)
    ensures op.Offer? ==>
              Tagged(Step(l, op).chunks) ==
              Tagged(l.chunks) + Tag(op.kind, op.data)[..Min(|op.data|, l.maxBytes - l.outputBytes)]
  {
    var l' := Step(l, op);
    if |l'.chunks| > |l.chunks| {
      assert l'.chunks[..|l'.chunks| - 1] == l.chunks;
      if op.Offer? {
        var n := Min(|op.data|, l.maxBytes - l.outputBytes);
        assert Tag(op.kind, op.data[..n]) == Tag(op.kind, op.data)[..n];
      }
    }
  }

  lemma {:induction false} PrefixSplice<T>(a: seq<T>, t: seq<T>, cap: nat)
    ensures a[..Min(|a|, cap)] + t[..Min(|t|, cap - Min(|a|, cap))] == (a + t)[..Min(|a + t|, cap)]
  {
    if |a| <= cap {
      assert a[..Min(|a|, cap)] == a;
    }
  }

  /** The cap keeps exactly a prefix: the log holds the first min(T, max) of the T bytes offered. */
  lemma {:induction false} CapKeepsPrefix(maxBytes: int, ops: seq<Op>)
    ensures var r := Run(FreshLog(maxBytes), ops);
            var offered := OfferedBytes(ops);
            && Tagged(r.chunks) == offered[..Min(|offered|, ClampMax(maxBytes))]
            && r.outputBytes == Min(|offered|, ClampMax(maxBytes))
    decreases |ops|
  {
    RunWellFormed(maxBytes, ops);
    if ops != [] {
      var ops' := ops[..|ops| - 1];
      CapKeepsPrefix(maxBytes, ops');
      RunWellFormed(maxBytes, ops');
      RunExtends(FreshLog(maxBytes), ops');
      var l, op := Run(FreshLog(maxBytes), ops'), ops[|ops| - 1];
      StepTagged(l, op);
      if op.Offer? {
        PrefixSplice(OfferedBytes(ops'), Tag(op.kind, op.data), ClampMax(maxBytes));
      } else {
        assert OfferedBytes(ops) == OfferedBytes(ops');
      }
    }
  }

  /** An empty Append that arrives when the cap is already used up. */
  ghost predicate EmptyOfferAtCap(cap: int, ops: seq<Op>) {
    exists i :: 0 <= i < |ops| && ops[i].Offer? && ops[i].data == [] && |OfferedBytes(ops[..i])| >= cap
  }

  lemma {:induction false} EmptyOfferAtCapStep(cap: int, ops: seq<Op>)
    requires ops != []
    ensures EmptyOfferAtCap(cap, ops) <==>
            || EmptyOfferAtCap(cap, ops[..|ops| - 1])
            || (ops[|ops| - 1].Offer? && ops[|ops| - 1].data == [] && |OfferedBytes(ops[..|ops| - 1])| >= cap)
  {
    var ops' := ops[..|ops| - 1];
    if EmptyOfferAtCap(cap, ops') {
      var i :| 0 <= i < |ops'| && ops'[i].Offer? && ops'[i].data == [] && |OfferedBytes(ops'[..i])| >= cap;
      assert ops[..i] == ops'[..i] && ops[i] == ops'[i];
    }
    if EmptyOfferAtCap(cap, ops) {
      var i :| 0 <= i < |ops| && ops[i].Offer? && ops[i].data == [] && |OfferedBytes(ops[..i])| >= cap;
      if i < |ops'| {
        assert ops[..i] == ops'[..i] && ops[i] == ops'[i];
      }
    }
  }

  lemma {:induction false} StepTruncated(l: Log, op: Op)
    ensures Step(l, op).truncated <==>
            l.truncated || (op.Offer? && (l.outputBytes >= l.maxBytes || l.outputBytes + |op.data| > l.maxBytes))
  {
  }

  /**
   Exactly when a record is flagged truncated: more was offered than the cap allows, or an empty
   Append came at a full cap.
   */
  lemma {:induction false} TruncatedExactly(maxBytes: int, ops: seq<Op>)
    ensures var cap := ClampMax(maxBytes);
            Run(FreshLog(maxBytes), ops).truncated <==>
            |OfferedBytes(ops)| > cap || EmptyOfferAtCap(cap, ops)
    decreases |ops|
  {
    if ops != [] {
      var ops' := ops[..|ops| - 1];
      TruncatedExactly(maxBytes, ops');
      CapKeepsPrefix(maxBytes, ops');
      RunExtends(FreshLog(maxBytes), ops');
      StepTruncated(Run(FreshLog(maxBytes), ops'), ops[|ops| - 1]);
      EmptyOfferAtCapStep(ClampMax(maxBytes), ops);
    }
  }

  /** For the drain, which never appends an empty slice, truncated means T > max and nothing else. */
  lemma {:induction false} TruncatedIffOverCap(maxBytes: int, ops: seq<Op>)
    requires NoEmptyOffer(ops)
    ensures Run(FreshLog(maxBytes), ops).truncated <==> |OfferedBytes(ops)| > ClampMax(maxBytes)
  {
    TruncatedExactly(maxBytes, ops);
  }

  /** Why the drain guards against empty slices: one empty Append at the cap flags a record that lost nothing. */
  lemma {:induction false} EmptyAppendFlagsTruncation()
    ensures var ops := [Offer(Stdout, [7]), Offer(Stdout, [])];
            && |OfferedBytes(ops)| == 1 == ClampMax(1)
            && Run(FreshLog(1), ops).outputBytes == 1
            && Run(FreshLog(1), ops).truncated
  {
    var one := [Offer(Stdout, [7])];
    var ops := [Offer(Stdout, [7]), Offer(Stdout, [])];
    assert one[..0] == [] && ops[..1] == one;
    assert Run(FreshLog(1), one) == Step(FreshLog(1), one[0]);
    assert |OfferedBytes(one)| == 1;
  }

  lemma {:induction false} NonEmptyCount(maxBytes: int, ops: seq<Op>)
    requires AllProper(ops) && NoEmptyOffer(ops)
    ensures var r := Run(FreshLog(maxBytes), ops);
            r.nextSeq <= r.outputBytes + if r.status == Running then 0 else 1
    decreases |ops|
  {
    if ops != [] {
      NonEmptyCount(maxBytes, ops[..|ops| - 1]);
    }
  }

  /**
   Every sequence number the drain can issue is at most the cap, so neither the counter nor the
   `lastID + 1` of a resume can leave 64 bits.
   */
  lemma {:induction false} SeqNumbersFit(maxBytes: int, ops: seq<Op>)
    requires AllProper(ops) && NoEmptyOffer(ops)
    ensures var r := Run(FreshLog(maxBytes), ops);
            && r.nextSeq <= r.maxBytes + 1 <= MAX_OUTPUT_BYTES_HARD + 1
            && forall i :: 0 <= i < |r.chunks| ==> r.chunks[i].seqNo + 1 <= MAX_OUTPUT_BYTES_HARD + 1
  {
    RunWellFormed(maxBytes, ops);
    NonEmptyCount(maxBytes, ops);
  }

  // ---------------------------------------------------------------- replay to a new subscriber

  /** What a fresh channel holds once every chunk from `fromSeq` on was offered to it, none being received. */
  function Replay(chunks: seq<Chunk>, fromSeq: nat): seq<Chunk> {
    if chunks == [] then []
    else
      var before := Replay(chunks[..|chunks| - 1], fromSeq);
      var last := chunks[|chunks| - 1];
      if last.seqNo < fromSeq then before else Offered(before, SUBSCRIBER_SLOTS, last)
  }

  /** Replay of a numbered log delivers exactly the contiguous slice of up to 64 entries from `fromSeq`. */
  lemma {:induction false} ReplayIsSlice(chunks: seq<Chunk>, fromSeq: nat)
    requires Numbered(chunks)
    ensures Replay(chunks, fromSeq) ==
            if fromSeq < |chunks| then chunks[fromSeq..Min(fromSeq + SUBSCRIBER_SLOTS, |chunks|)] else []
    decreases |chunks|
  {
    if chunks != [] {
      var front, last := chunks[..|chunks| - 1], chunks[|chunks| - 1];
      assert Numbered(front) && last.seqNo == |front|;
      hide Numbered;
      ReplayIsSlice(front, fromSeq);
      if fromSeq < |chunks| {
        WindowSnoc(front, last, fromSeq, SUBSCRIBER_SLOTS);
        assert chunks == front + [last];
      }
    }
  }

  /** Up to `cap` entries from `from` on, when one more entry comes. */
  lemma {:induction false} WindowSnoc<T>(s: seq<T>, x: T, from: nat, cap: nat)
    requires from <= |s|
    ensures var t := s + [x];
            var before := s[from..Min(from + cap, |s|)];
            t[from..Min(from + cap, |t|)] == if |s| < from + cap then before + [x] else before
    ensures |s[from..Min(from + cap, |s|)]| == Min(cap, |s| - from)
  {
  }

  // ---------------------------------------------------------------- a record rebuilt from a row

  /** A stored output column becomes one chunk, or none when it is empty. */
  function StoredChunk(seqNo: nat, kind: ChunkKind, data: seq<byte>): seq<Chunk> {
    if data == [] then [] else [Chunk(seqNo, kind, data, 0)]
  }

  function LoadLog(maxBytes: int, status: Status, exitCode: int32, stdout: seq<byte>, stderr: seq<byte>,
                   truncated: bool, completionErr: string, completedAt: int): Log
  {
    var out := StoredChunk(0, Stdout, stdout);
    var both := out + StoredChunk(|out|, Stderr, stderr);
    var all := if status == Running then both else both + [Chunk(|both|, Done, [], exitCode)];
    Log(maxBytes, status, exitCode, completionErr, completedAt, all, |all|, |stdout| + |stderr|, truncated)
  }

  lemma {:induction false} OutputSnoc(kind: ChunkKind, chunks: seq<Chunk>, c: Chunk)
    ensures OutputOf(kind, chunks + [c]) == OutputOf(kind, chunks) + if c.kind == kind then c.data else []
  {
    assert (chunks + [c])[..|chunks|] == chunks;
  }

  lemma {:induction false} StoredOutput(kind: ChunkKind, chunks: seq<Chunk>, k: ChunkKind, data: seq<byte>)
    ensures OutputOf(kind, chunks + StoredChunk(|chunks|, k, data)) ==
            OutputOf(kind, chunks) + if k == kind then data else []
  {
    if data == [] {
      assert chunks + StoredChunk(|chunks|, k, data) == chunks;
    } else {
      OutputSnoc(kind, chunks, Chunk(|chunks|, k, data, 0));
    }
  }

  lemma {:induction false} LoadedOutput(maxBytes: int, status: Status, exitCode: int32, stdout: seq<byte>,
                                        stderr: seq<byte>, truncated: bool, err: string, completedAt: int)
    ensures var l := LoadLog(maxBytes, status, exitCode, stdout, stderr, truncated, err, completedAt);
            OutputOf(Stdout, l.chunks) == stdout && OutputOf(Stderr, l.chunks) == stderr
  {
    hide OutputOf;
    var out := StoredChunk(0, Stdout, stdout);
    var both := out + StoredChunk(|out|, Stderr, stderr);
    BothOutput(Stdout, stdout, stderr);
    BothOutput(Stderr, stdout, stderr);
    hide StoredChunk;
    OutputSnoc(Stdout, both, Chunk(|both|, Done, [], exitCode));
    OutputSnoc(Stderr, both, Chunk(|both|, Done, [], exitCode));
  }

  lemma {:induction false} BothOutput(kind: ChunkKind, stdout: seq<byte>, stderr: seq<byte>)
    requires kind != Done
    ensures var out := StoredChunk(0, Stdout, stdout);
            OutputOf(kind, out + StoredChunk(|out|, Stderr, stderr)) == if kind == Stdout then stdout else stderr
  {
    hide OutputOf;
    hide StoredChunk;
    var out := StoredChunk(0, Stdout, stdout);
    NoOutput(kind);
    StoredOutput(kind, [], Stdout, stdout);
    assert [] + out == out;
    StoredOutput(kind, out, Stderr, stderr);
  }

  lemma {:induction false} NoOutput(kind: ChunkKind)
    ensures OutputOf(kind, []) == []
  {
  }

  /** The number of tagged bytes is the number of output bytes, when no Done chunk carries data. */
  lemma {:induction false} TaggedLength(chunks: seq<Chunk>)
    requires forall i :: 0 <= i < |chunks| && chunks[i].kind == Done ==> chunks[i].data == []
    ensures |Tagged(chunks)| == |OutputOf(Stdout, chunks)| + |OutputOf(Stderr, chunks)|
    decreases |chunks|
  {
    if chunks != [] {
      TaggedLength(chunks[..|chunks| - 1]);
    }
  }

  lemma {:induction false} LoadedShape(maxBytes: int, status: Status, exitCode: int32, stdout: seq<byte>,
                                       stderr: seq<byte>, truncated: bool, err: string, completedAt: int)
    ensures var l := LoadLog(maxBytes, status, exitCode, stdout, stderr, truncated, err, completedAt);
            && Numbered(l.chunks)
            && (forall i :: 0 <= i < |l.chunks| && l.chunks[i].kind == Done ==> l.chunks[i].data == [])
            && (status == Running ==> forall i :: 0 <= i < |l.chunks| ==> l.chunks[i].kind != Done)
            && (status != Running ==>
                  OnlyDoneAt(l.chunks, |l.chunks| - 1) && l.chunks[|l.chunks| - 1].exitCode == exitCode)
  {
  }

  /** A rebuilt log has at most one chunk per stream, stdout before stderr. */
  lemma {:induction false} LoadedOrder(maxBytes: int, status: Status, exitCode: int32, stdout: seq<byte>,
                                       stderr: seq<byte>, truncated: bool, err: string, completedAt: int)
    ensures var chunks := LoadLog(maxBytes, status, exitCode, stdout, stderr, truncated, err, completedAt).chunks;
            && (stdout != [] ==> chunks != [] && chunks[0] == Chunk(0, Stdout, stdout, 0))
            && (stdout == [] && stderr != [] ==> chunks != [] && chunks[0] == Chunk(0, Stderr, stderr, 0))
            && (stdout != [] && stderr != [] ==> |chunks| >= 2 && chunks[1] == Chunk(1, Stderr, stderr, 0))
  {
  }

  /** The second constructor establishes the record invariant whenever the stored bytes respect the cap. */
  lemma {:induction false} LoadedWellFormed(maxBytes: int, status: Status, exitCode: int32, stdout: seq<byte>,
                                            stderr: seq<byte>, truncated: bool, err: string, completedAt: int)
    requires 0 < maxBytes <= MAX_OUTPUT_BYTES_HARD && |stdout| + |stderr| <= maxBytes
    ensures var l := LoadLog(maxBytes, status, exitCode, stdout, stderr, truncated, err, completedAt);
            && WellFormed(l) && DoneMatchesStatus(l)
            && (status != Running ==> OnlyDoneAt(l.chunks, |l.chunks| - 1))
  {
    var l := LoadLog(maxBytes, status, exitCode, stdout, stderr, truncated, err, completedAt);
    LoadedShape(maxBytes, status, exitCode, stdout, stderr, truncated, err, completedAt);
    LoadedOutput(maxBytes, status, exitCode, stdout, stderr, truncated, err, completedAt);
    TaggedLength(l.chunks);
  }
}
