/** The exec record itself: an object updated in place, with live subscribers. */
module ExecRecords {
  import opened ExecTypes
  import opened ExecLog

  /** A subscriber's channel. A send on a closed channel would panic, hence the `requires`. */
  class Channel {
    var buffer: seq<Chunk>
    var closed: bool

    constructor ()
      ensures buffer == [] && !closed
    {
      buffer, closed := [], false;
    }

    method TrySend(c: Chunk)
      requires !closed
      modifies this`buffer
      ensures buffer == Offered(old(buffer), SUBSCRIBER_SLOTS, c)
    {
      if |buffer| < SUBSCRIBER_SLOTS {
        buffer := buffer + [c];
      }
    }

    /** `None` means the channel is closed and drained. */
    method Receive() returns (c: Option<Chunk>)
      requires buffer != [] || closed
      modifies this`buffer
      ensures old(buffer) == [] ==> c == None && buffer == []
      ensures old(buffer) != [] ==> c == Some(old(buffer)[0]) && buffer == old(buffer)[1..]
    {
      if buffer == [] {
        c := None;
      } else {
        c := Some(buffer[0]);
        buffer := buffer[1..];
      }
    }

    method Close()
      requires !closed
      modifies this`closed
      ensures closed
    {
      closed := true;
    }
  }

  /** Offers one chunk to every channel of a snapshot, outside the record's lock, in any order. */
  method FanOut(subs: set<Channel>, c: Chunk)
    requires forall ch | ch in subs :: !ch.closed
    modifies subs
    ensures forall ch | ch in subs :: !ch.closed && ch.buffer == Offered(old(ch.buffer), SUBSCRIBER_SLOTS, c)
  {
    var todo := subs;
    while todo != {}
      invariant todo <= subs
      invariant forall ch | ch in todo :: ch.buffer == old(ch.buffer)
      invariant forall ch | ch in subs && ch !in todo ::
                  ch.buffer == Offered(old(ch.buffer), SUBSCRIBER_SLOTS, c)
      invariant forall ch | ch in subs :: !ch.closed
      decreases todo
    {
      var ch :| ch in todo;
      ch.TrySend(c);
      todo := todo - {ch};
    }
  }

  class ExecRecord {
    const id: string
    const sandboxID: string
    const command: seq<string>
    const env: map<string, string>
    const cwd: string
    const background: bool
    const maxOutputBytes: int
    const startedAt: int

    var status: Status
    var exitCode: int32
    var completedAt: int
    var chunks: seq<Chunk>
    var nextSeq: nat
    var outputBytes: int
    var truncated: bool
    var subscribers: set<Channel>
    var completionErr: string

    /** No registered channel is closed. */
    ghost predicate Valid()
      reads this, subscribers
    {
      forall ch | ch in subscribers :: !ch.closed
    }

    /** The record's value, without its subscribers; `Snapshot` is a view of it. */
    function State(): Log
      reads this
    {
      Log(maxOutputBytes, status, exitCode, completionErr, completedAt, chunks, nextSeq, outputBytes, truncated)
    }

    constructor (id: string, sandboxID: string, command: seq<string>, env: map<string, string>, cwd: string,
                 background: bool, maxOutputBytes: int, now: int)
      ensures Valid() && subscribers == {}
      ensures State() == FreshLog(maxOutputBytes)
      ensures this.id == id && this.sandboxID == sandboxID && this.command == command && this.env == env
      ensures this.cwd == cwd && this.background == background && startedAt == now
    {
      this.id, this.sandboxID, this.command, this.env := id, sandboxID, command, env;
      this.cwd, this.background, this.startedAt := cwd, background, now;
      this.maxOutputBytes := if maxOutputBytes <= 0 || maxOutputBytes > MAX_OUTPUT_BYTES_HARD
                             then MAX_OUTPUT_BYTES_HARD else maxOutputBytes;
      status, exitCode, completedAt, completionErr := Running, 0, 0, "";
      chunks, nextSeq, outputBytes, truncated := [], 0, 0, false;
      subscribers := {};
    }

    constructor FromDB(id: string, sandboxID: string, command: string, cwd: string, env: map<string, string>,
                       background: bool, maxOutputBytes: int, status: Status, exitCode: int32,
                       stdout: seq<byte>, stderr: seq<byte>, truncated: bool, completionErr: string,
                       startedAt: int, completedAt: int)
      ensures Valid() && subscribers == {}
      ensures State() == LoadLog(maxOutputBytes, status, exitCode, stdout, stderr, truncated, completionErr,
                                 completedAt)
      ensures this.id == id && this.sandboxID == sandboxID && this.command == [command] && this.env == env
      ensures this.cwd == cwd && this.background == background && this.startedAt == startedAt
    {
      this.id, this.sandboxID, this.command, this.env := id, sandboxID, [command], env;
      this.cwd, this.background, this.maxOutputBytes := cwd, background, maxOutputBytes;
      this.status, this.exitCode, this.startedAt, this.completedAt := status, exitCode, startedAt, completedAt;
      this.truncated, this.completionErr := truncated, completionErr;
      subscribers := {};
      var loaded: seq<Chunk>, next: nat, bytes := [], 0, 0;
      if |stdout| > 0 {
        loaded := loaded + [Chunk(next, Stdout, stdout, 0)];
        next := next + 1;
        bytes := bytes + |stdout|;
      }
      assert loaded == StoredChunk(0, Stdout, stdout) && next == |loaded|;
      ghost var out := loaded;
      if |stderr| > 0 {
        loaded := loaded + [Chunk(next, Stderr, stderr, 0)];
        next := next + 1;
        bytes := bytes + |stderr|;
      }
      assert loaded == out + StoredChunk(|out|, Stderr, stderr) && next == |loaded|;
      if status != Running {
        loaded := loaded + [Chunk(next, Done, [], exitCode)];
        next := next + 1;
      }
      chunks, nextSeq, outputBytes := loaded, next, bytes;
    }

    /** Applies the cap, numbers and stores the chunk, then offers it to every registered channel. */
    method Append(kind: ChunkKind, data: seq<byte>)
      requires Valid()
      modifies this, subscribers
      ensures Valid() && subscribers == old(subscribers)
      ensures State() == AppendLog(old(State()), kind, data)
      ensures forall ch | ch in subscribers ::
                ch.buffer == if |chunks| == |old(chunks)| then old(ch.buffer)
                             else Offered(old(ch.buffer), SUBSCRIBER_SLOTS, chunks[|chunks| - 1])
    {
      var remaining := maxOutputBytes - outputBytes;
      if remaining <= 0 {
        truncated := true;
        return;
      }
      var payload := data;
      if |payload| > remaining {
        payload := payload[..remaining];
        truncated := true;
      }
      assert payload == data[..Min(|data|, remaining)];
      var chunk := Chunk(nextSeq, kind, payload, 0);
      nextSeq := nextSeq + 1;
      chunks := chunks + [chunk];
      outputBytes := outputBytes + |payload|;
      FanOut(subscribers, chunk);
    }

    /** The first call makes the record terminal and offers the Done chunk; later calls change nothing. */
    method Finish(newStatus: Status, code: int32, reason: string, now: int)
      requires Valid()
      modifies this, subscribers
      ensures Valid() && subscribers == old(subscribers)
      ensures State() == FinishLog(old(State()), newStatus, code, reason, now)
      ensures forall ch | ch in subscribers ::
                ch.buffer == if |chunks| == |old(chunks)| then old(ch.buffer)
                             else Offered(old(ch.buffer), SUBSCRIBER_SLOTS, chunks[|chunks| - 1])
    {
      if status != Running {
        return;
      }
      status, exitCode, completedAt, completionErr := newStatus, code, now, reason;
      var doneChunk := Chunk(nextSeq, Done, [], code);
      nextSeq := nextSeq + 1;
      chunks := chunks + [doneChunk];
      FanOut(subscribers, doneChunk);
    }

    /** Replays from `fromSeq`, then registers the channel, or closes it when the exec is over. */
    method Subscribe(fromSeq: nat) returns (ch: Channel)
      requires Valid()
      modifies this`subscribers
      ensures Valid() && fresh(ch)
      ensures ch.buffer == Replay(chunks, fromSeq)
      ensures ch.closed <==> status != Running
      ensures subscribers == if status == Running then old(subscribers) + {ch} else old(subscribers)
    {
      ch := new Channel();
      for i := 0 to |chunks|
        invariant ch.buffer == Replay(chunks[..i], fromSeq) && !ch.closed && ch !in subscribers
        invariant subscribers == old(subscribers)
        invariant forall c | c in subscribers :: !c.closed
      {
        assert chunks[..i + 1][..i] == chunks[..i];
        if chunks[i].seqNo >= fromSeq {
          ch.TrySend(chunks[i]);
        }
      }
      assert chunks[..|chunks|] == chunks;
      if status == Running {
        subscribers := subscribers + {ch};
      } else {
        ch.Close();
      }
    }

    /** Unregisters and closes a channel once; a second call, or one after the record closed it, does nothing. */
    method Cancel(ch: Channel)
      requires Valid()
      modifies this`subscribers, ch`closed
      ensures Valid() && subscribers == old(subscribers) - {ch}
      ensures ch.closed <==> old(ch.closed) || ch in old(subscribers)
    {
      if ch in subscribers {
        subscribers := subscribers - {ch};
        ch.Close();
      }
    }

    /** The captured bytes of each stream, concatenated in chunk order. */
    method Output() returns (stdout: seq<byte>, stderr: seq<byte>)
      ensures stdout == OutputOf(Stdout, chunks) && stderr == OutputOf(Stderr, chunks)
    {
      stdout, stderr := [], [];
      for i := 0 to |chunks|
        invariant stdout == OutputOf(Stdout, chunks[..i]) && stderr == OutputOf(Stderr, chunks[..i])
      {
        assert chunks[..i + 1][..i] == chunks[..i];
        match chunks[i].kind {
          case Stdout => stdout := stdout + chunks[i].data;
          case Stderr => stderr := stderr + chunks[i].data;
          case Done =>
        }
      }
      assert chunks[..|chunks|] == chunks;
    }
  }
}
