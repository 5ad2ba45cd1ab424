/** The adapter's Server-Sent Events: what it writes, and what a standard reader makes of it. */
module SseWire {
  import opened ExecTypes
  import opened ExecLog
  import opened Decimal
  import opened Base64
  import opened JsonObject
  import opened EventStream

  // ---------------------------------------------------------------- writing

  function EventName(kind: ChunkKind): string {
    match kind case Stdout => "stdout" case Stderr => "stderr" case Done => "done"
  }

  const DATA_OPEN: string := "{\"data\":\""
  const DATA_CLOSE: string := "\"}"
  const EXIT_OPEN: string := "{\"exit_code\":"
  const EXIT_CLOSE: string := "}"

  /** The JSON body; a base64 string needs no escapes in JSON. */
  function Body(c: Chunk): string {
    match c.kind
    case Done => EXIT_OPEN + Signed(c.exitCode) + EXIT_CLOSE
    case _ => DATA_OPEN + Encode(c.data) + DATA_CLOSE
  }

  /** One chunk as one event. */
  function EventText(c: Chunk): string {
    "event: " + EventName(c.kind) + "\nid: " + Unsigned(c.seqNo) + "\ndata: " + Body(c) + "\n\n"
  }

  /** What the stream handler writes: an event per chunk, and heartbeats at any time in between. */
  datatype Item = Write(chunk: Chunk) | Heartbeat

  function ItemText(item: Item): string {
    match item
    case Write(c) => EventText(c)
    case Heartbeat => ": heartbeat\n\n"
  }

  function Text(items: seq<Item>): string {
    if items == [] then "" else ItemText(items[0]) + Text(items[1..])
  }

  // ---------------------------------------------------------------- lines of the wire

  function Joined(lines: seq<string>): string {
    if lines == [] then "" else lines[0] + "\n" + Joined(lines[1..])
  }

  function ItemLines(item: Item): seq<string> {
    match item
    case Write(c) =>
      ["event" + ": " + EventName(c.kind), "id" + ": " + Unsigned(c.seqNo), "data" + ": " + Body(c), ""]
    case Heartbeat => [": heartbeat", ""]
  }

  ghost predicate AllClean(lines: seq<string>) {
    forall i :: 0 <= i < |lines| ==> Clean(lines[i])
  }

  lemma {:induction false} CleanConcat(a: string, b: string)
    requires Clean(a) && Clean(b)
    ensures Clean(a + b)
  {
  }

  lemma {:induction false} NumbersAreClean(n: int)
    ensures n >= 0 ==> Clean(Unsigned(n)) && '\0' !in Unsigned(n)
    ensures Clean(Signed(n))
  {
    UnsignedDigits(if n < 0 then -n else n);
  }

  lemma {:induction false} BodyIsClean(c: Chunk)
    ensures Clean(Body(c)) && Body(c) != ""
  {
    NumbersAreClean(c.exitCode);
    EncodedIsPlain(c.data);
    var encoded := Encode(c.data);
    forall i | 0 <= i < |encoded| ensures !IsEol(encoded[i]) { assert Plain(encoded[i]); }
    CleanConcat(DATA_OPEN, encoded);
    CleanConcat(DATA_OPEN + encoded, DATA_CLOSE);
    CleanConcat(EXIT_OPEN, Signed(c.exitCode));
    CleanConcat(EXIT_OPEN + Signed(c.exitCode), EXIT_CLOSE);
  }

  lemma {:induction false} ItemLinesAreClean(item: Item)
    ensures AllClean(ItemLines(item))
  {
    match item
    case Write(c) =>
      NumbersAreClean(c.seqNo);
      BodyIsClean(c);
      CleanConcat("event" + ": ", EventName(c.kind));
      CleanConcat("id" + ": ", Unsigned(c.seqNo));
      CleanConcat("data" + ": ", Body(c));
    case Heartbeat =>
  }

  lemma {:induction false} JoinedCons(a: string, rest: seq<string>)
    ensures Joined([a] + rest) == a + "\n" + Joined(rest)
  {
    assert ([a] + rest)[1..] == rest;
  }

  lemma {:induction false} JoinedFour(a: string, b: string, c: string, d: string)
    ensures Joined([a, b, c, d]) == a + "\n" + b + "\n" + c + "\n" + d + "\n"
    ensures Joined([a, b]) == a + "\n" + b + "\n"
  {
    hide Joined;
    assert [a, b, c, d] == [a] + ([b] + ([c] + ([d] + []))) && [a, b] == [a] + ([b] + []);
    assert Joined([]) == "" by { JoinedNil(); }
    JoinedCons(a, [b] + ([c] + ([d] + [])));
    JoinedCons(b, [c] + ([d] + []));
    JoinedCons(c, [d] + []);
    JoinedCons(d, []);
    JoinedCons(a, [b] + []);
    JoinedCons(b, []);
  }

  lemma {:induction false} JoinedNil()
    ensures Joined([]) == ""
  {
  }

  lemma {:induction false} ItemTextIsLines(item: Item)
    ensures ItemText(item) == Joined(ItemLines(item))
  {
    hide Joined;
    hide Unsigned;
    hide Body;
    hide EventName;
    var ls := ItemLines(item);
    match item
    case Write(c) =>
      JoinedFour(ls[0], ls[1], ls[2], ls[3]);
      assert "event: " == "event" + ": " && "\nid: " == "\n" + ("id" + ": ") && "\ndata: " == "\n" + ("data" + ": ");
      assert "\n\n" == "\n" + "" + "\n";
    case Heartbeat =>
      JoinedFour(ls[0], ls[1], "", "");
      assert ": heartbeat\n\n" == ": heartbeat" + "\n" + "" + "\n";
  }

  lemma {:induction false} JoinedLines(lines: seq<string>, rest: string)
    requires AllClean(lines)
    ensures Lines(Joined(lines) + rest) == lines + Lines(rest)
    decreases |lines|
  {
    hide Lines;
    hide Clean;
    if lines == [] {
      assert Joined(lines) + rest == rest;
    } else {
      var first, tail := lines[0], Joined(lines[1..]) + rest;
      FirstLine(first, tail);
      assert Joined(lines) + rest == first + "\n" + tail;
      JoinedLines(lines[1..], rest);
      assert lines == [first] + lines[1..];
    }
  }

  /** Cut anywhere, the complete lines of a text are a prefix of its lines, and a proper one unless nothing is cut. */
  lemma {:induction false} CutLines(lines: seq<string>, k: nat) returns (m: nat)
    requires AllClean(lines) && k <= |Joined(lines)|
    ensures m <= |lines| && Lines(Joined(lines)[..k]) == lines[..m]
    ensures k < |Joined(lines)| ==> m < |lines|
    decreases |lines|
  {
    hide Lines;
    if lines == [] {
      m := 0;
      FirstLine("", "");
    } else {
      var first, rest := lines[0], Joined(lines[1..]);
      if k <= |first| {
        m := 0;
        FirstLine(first[..k], "");
        assert Joined(lines)[..k] == first[..k];
      } else {
        var n := CutLines(lines[1..], k - |first| - 1);
        m := n + 1;
        FirstLine(first, rest[..k - |first| - 1]);
        assert Joined(lines)[..k] == first + "\n" + rest[..k - |first| - 1];
        assert lines[..m] == [first] + lines[1..][..n];
      }
    }
  }

  // ---------------------------------------------------------------- what a reader makes of it

  /** Between events: nothing is pending. */
  ghost predicate Idle(r: Reader) {
    r.data == "" && r.eventType == ""
  }

  function EventFor(c: Chunk): Event {
    Event(EventName(c.kind), Body(c), Unsigned(c.seqNo))
  }

  function AfterItem(r: Reader, item: Item): Reader {
    match item
    case Write(c) =>
      r.(idBuffer := Unsigned(c.seqNo), lastId := Unsigned(c.seqNo), events := r.events + [EventFor(c)])
    case Heartbeat => r.(lastId := r.idBuffer)
  }

  function AfterItems(r: Reader, items: seq<Item>): Reader
    decreases |items|
  {
    if items == [] then r else AfterItems(AfterItem(r, items[0]), items[1..])
  }

  /** How many of the items arrived whole when `k` characters did. */
  function WholeItems(items: seq<Item>, k: nat): (n: nat)
    ensures n <= |items|
  {
    if items == [] || k < |ItemText(items[0])| then 0
    else 1 + WholeItems(items[1..], k - |ItemText(items[0])|)
  }

  lemma {:induction false} FeedCons(r: Reader, line: string, rest: seq<string>)
    ensures Feed(r, [line] + rest) == Feed(ProcessLine(r, line), rest)
    ensures Feed(r, []) == r
  {
    hide ProcessLine;
    assert ([line] + rest)[1..] == rest;
  }

  lemma {:induction false} FeedFour(r: Reader, a: string, b: string, c: string, d: string)
    ensures Feed(r, [a, b, c, d]) == ProcessLine(ProcessLine(ProcessLine(ProcessLine(r, a), b), c), d)
    ensures Feed(r, [a, b]) == ProcessLine(ProcessLine(r, a), b)
  {
    hide ProcessLine;
    hide Feed;
    assert [a, b, c, d] == [a] + ([b] + ([c] + ([d] + []))) && [a, b] == [a] + ([b] + []);
    var r1 := ProcessLine(r, a);
    var r2 := ProcessLine(r1, b);
    var r3 := ProcessLine(r2, c);
    var r4 := ProcessLine(r3, d);
    FeedCons(r, a, [b] + ([c] + ([d] + [])));
    FeedCons(r1, b, [c] + ([d] + []));
    FeedCons(r2, c, [d] + []);
    FeedCons(r3, d, []);
    FeedCons(r4, d, []);
    FeedCons(r, a, [b] + []);
    FeedCons(r1, b, []);
    FeedCons(r2, b, []);
  }

  lemma {:induction false} ItemIsRead(r: Reader, item: Item)
    requires Idle(r)
    ensures Feed(r, ItemLines(item)) == AfterItem(r, item)
  {
    var ls := ItemLines(item);
    match item
    case Write(c) =>
      FeedFour(r, ls[0], ls[1], ls[2], ls[3]);
      EventIsRead(r, c);
    case Heartbeat =>
      FeedFour(r, ls[0], ls[1], "", "");
      assert ProcessLine(r, ": heartbeat") == r;
  }

  lemma {:induction false} EmptyLine(r: Reader)
    ensures ProcessLine(r, "") == Dispatch(r)
  {
  }

  lemma {:induction false} EventIsRead(r: Reader, c: Chunk)
    requires Idle(r)
    ensures var ls := ItemLines(Write(c));
            ProcessLine(ProcessLine(ProcessLine(ProcessLine(r, ls[0]), ls[1]), ls[2]), ls[3]) == AfterItem(r, Write(c))
  {
    hide ProcessLine;
    hide Unsigned;
    hide Body;
    var ls := ItemLines(Write(c));
    FieldLine(r, "event", EventName(c.kind));
    var r1 := r.(eventType := EventName(c.kind));
    FieldLine(r1, "id", Unsigned(c.seqNo));
    NumbersAreClean(c.seqNo);
    var r2 := r1.(idBuffer := Unsigned(c.seqNo));
    FieldLine(r2, "data", Body(c));
    var r3 := r2.(data := Body(c) + "\n");
    assert "" + Body(c) + "\n" == Body(c) + "\n";
    EmptyLine(r3);
    assert r3.data[..|r3.data| - 1] == Body(c);
    assert EventName(c.kind) != "";
  }

  /** Only an empty line dispatches. */
  lemma {:induction false} NoEmptyLineNoDispatch(r: Reader, lines: seq<string>)
    requires forall i :: 0 <= i < |lines| ==> lines[i] != ""
    ensures Feed(r, lines).events == r.events && Feed(r, lines).lastId == r.lastId
    decreases |lines|
  {
    if lines != [] {
      NoEmptyLineNoDispatch(ProcessLine(r, lines[0]), lines[1..]);
    }
  }

  lemma {:induction false} PartialItem(r: Reader, item: Item, k: nat)
    requires Idle(r) && k < |ItemText(item)|
    ensures var r' := Feed(r, Lines(ItemText(item)[..k])); r'.events == r.events && r'.lastId == r.lastId
  {
    hide Lines;
    ItemTextIsLines(item);
    ItemLinesAreClean(item);
    var m := CutLines(ItemLines(item), k);
    var ls := ItemLines(item);
    assert forall i :: 0 <= i < |ls| - 1 ==> |ls[i]| >= 2;
    NoEmptyLineNoDispatch(r, ls[..m]);
  }

  lemma {:induction false} CutItems(r: Reader, items: seq<Item>, k: nat)
    requires Idle(r) && k <= |Text(items)|
    ensures var r' := Feed(r, Lines(Text(items)[..k]));
            var whole := AfterItems(r, items[..WholeItems(items, k)]);
            r'.events == whole.events && r'.lastId == whole.lastId
    decreases |items|
  {
    hide Lines;
    hide ItemText;
    if items != [] {
      var first, n, rest := items[0], |ItemText(items[0])|, Text(items[1..]);
      if k < n {
        PartialItem(r, first, k);
        assert Text(items)[..k] == ItemText(first)[..k];
      } else {
        ItemTextIsLines(first);
        ItemLinesAreClean(first);
        JoinedLines(ItemLines(first), rest[..k - n]);
        assert Text(items)[..k] == ItemText(first) + rest[..k - n];
        FeedConcat(r, ItemLines(first), Lines(rest[..k - n]));
        ItemIsRead(r, first);
        CutItems(AfterItem(r, first), items[1..], k - n);
        var j := WholeItems(items[1..], k - n);
        assert items[..j + 1][0] == first && items[..j + 1][1..] == items[1..][..j];
      }
    } else {
      assert Lines("") == [] by { FirstLine("", ""); }
    }
  }

  lemma {:induction false} NoByteOrderMark(items: seq<Item>)
    requires Text(items) != ""
    ensures Text(items)[0] != '\U{FEFF}'
  {
    var item := items[0];
    match item
    case Write(c) =>
      assert EventText(c)[0] == 'e';
    case Heartbeat =>
  }

  /**
   Wherever the connection breaks, a standard reader has dispatched exactly the events that arrived
   whole, and remembers the id of the last of them.
   */
  lemma {:induction false} CutAnywhere(r: Reader, items: seq<Item>, k: nat)
    requires Idle(r) && k <= |Text(items)|
    ensures var r' := Read(r, Text(items)[..k]);
            var whole := AfterItems(r, items[..WholeItems(items, k)]);
            r'.events == whole.events && r'.lastId == whole.lastId
  {
    hide Lines;
    hide Feed;
    CutItems(r, items, k);
    if k > 0 {
      NoByteOrderMark(items);
      assert Text(items)[..k][0] == Text(items)[0];
    }
  }

  // ---------------------------------------------------------------- decoding

  /** The chunk an event stands for: a reader's own account, by the names of the stream's contract. */
  function DecodeEvent(e: Event): Option<Chunk> {
    match (ParseUint(e.lastId), ReadObject(e.data))
    case (Some(seqNo), Some(Member("exit_code", Number(code)))) =>
      if e.kind == "done" && -0x8000_0000 <= code < 0x8000_0000 then Some(Chunk(seqNo, Done, [], code)) else None
    case (Some(seqNo), Some(Member("data", Text(text)))) =>
      (match Decode(text)
       case Some(data) =>
         if e.kind == "stdout" then Some(Chunk(seqNo, Stdout, data, 0))
         else if e.kind == "stderr" then Some(Chunk(seqNo, Stderr, data, 0))
         else None
       case None => None)
    case _ => None
  }

  /** Sequence numbers are 64-bit, and every chunk a record stores is canonical. */
  ghost predicate Wireable(c: Chunk) {
    c.seqNo < TWO_TO_64 && Canonical(c)
  }

  /** Kind, sequence number, bytes and exit code all survive. */
  lemma {:induction false} EventRoundTrip(c: Chunk)
    requires Wireable(c)
    ensures DecodeEvent(EventFor(c)) == Some(c)
  {
    hide Unsigned;
    hide Signed;
    hide ParseUint;
    hide ReadObject;
    hide Encode;
    hide Decode;
    UnsignedRoundTrip(c.seqNo);
    if c.kind == Done {
      NumberMemberIsRead("exit_code", c.exitCode);
      assert EXIT_OPEN == "{\"" + "exit_code" + "\":";
    } else {
      Base64RoundTrip(c.data);
      EncodedIsUnescaped(c.data);
      TextMemberIsRead("data", Encode(c.data));
      assert DATA_OPEN == "{\"" + "data" + "\":\"";
    }
  }

  lemma {:induction false} EncodedIsUnescaped(data: seq<byte>)
    ensures AllUnescaped(Encode(data))
  {
    EncodedIsPlain(data);
    hide Encode;
    forall i | 0 <= i < |Encode(data)| ensures Unescaped(Encode(data)[i]) {
      assert Plain(Encode(data)[i]);
    }
  }

  /** The chunks among the items. */
  function ChunksOf(items: seq<Item>): seq<Chunk> {
    if items == [] then []
    else (match items[0] case Write(c) => [c] case Heartbeat => []) + ChunksOf(items[1..])
  }

  /** The chunks a client decodes from the events it was dispatched. */
  function DecodeAll(events: seq<Event>): seq<Chunk> {
    if events == [] then []
    else
      (match DecodeEvent(events[0]) case Some(c) => [c] case None => []) + DecodeAll(events[1..])
  }

  function EventsFor(chunks: seq<Chunk>): seq<Event> {
    seq(|chunks|, i requires 0 <= i < |chunks| => EventFor(chunks[i]))
  }

  lemma {:induction false} DecodeAllRoundTrip(chunks: seq<Chunk>)
    requires forall i :: 0 <= i < |chunks| ==> Wireable(chunks[i])
    ensures DecodeAll(EventsFor(chunks)) == chunks
    decreases |chunks|
  {
    hide DecodeEvent;
    hide EventFor;
    hide Wireable;
    if chunks != [] {
      EventRoundTrip(chunks[0]);
      var events := EventsFor(chunks);
      assert events[0] == EventFor(chunks[0]) && events[1..] == EventsFor(chunks[1..]);
      DecodeAllRoundTrip(chunks[1..]);
      assert chunks == [chunks[0]] + chunks[1..];
    }
  }

  /** What any items do to a reader between events. */
  ghost predicate ItemsRead(r: Reader, items: seq<Item>, r': Reader) {
    var chunks := ChunksOf(items);
    && r'.events == r.events + EventsFor(chunks)
    && (chunks != [] ==> r'.lastId == r'.idBuffer == Unsigned(chunks[|chunks| - 1].seqNo))
    && (chunks == [] ==> r'.idBuffer == r.idBuffer && r'.lastId == if items == [] then r.lastId else r.idBuffer)
  }

  lemma {:induction false} EventsForCons(c: Chunk, rest: seq<Chunk>)
    ensures EventsFor([c] + rest) == [EventFor(c)] + EventsFor(rest)
  {
    hide EventFor;
  }

  lemma {:induction false} WriteRead(r: Reader, c: Chunk, rest: seq<Item>, r': Reader)
    requires ItemsRead(AfterItem(r, Write(c)), rest, r')
    ensures ItemsRead(r, [Write(c)] + rest, r')
  {
    hide EventFor;
    hide Unsigned;
    hide EventsFor;
    var later := ChunksOf(rest);
    assert ([Write(c)] + rest)[1..] == rest;
    assert ChunksOf([Write(c)] + rest) == [c] + later;
    hide ChunksOf;
    EventsForCons(c, later);
    assert r.events + [EventFor(c)] + EventsFor(later) == r.events + ([EventFor(c)] + EventsFor(later));
    if later == [] {
      assert [c] + later == [c];
    } else {
      assert ([c] + later)[|later|] == later[|later| - 1];
    }
  }

  lemma {:induction false} HeartbeatRead(r: Reader, rest: seq<Item>, r': Reader)
    requires ItemsRead(AfterItem(r, Heartbeat), rest, r')
    ensures ItemsRead(r, [Heartbeat] + rest, r')
  {
    hide Unsigned;
    hide EventsFor;
    assert ([Heartbeat] + rest)[1..] == rest;
    assert ChunksOf([Heartbeat] + rest) == ChunksOf(rest);
    hide ChunksOf;
  }

  lemma {:induction false} AfterItemsIs(r: Reader, items: seq<Item>)
    ensures ItemsRead(r, items, AfterItems(r, items))
    decreases |items|
  {
    hide Unsigned;
    if items != [] {
      var t := AfterItem(r, items[0]);
      hide AfterItem;
      hide ItemsRead;
      AfterItemsIs(t, items[1..]);
      assert items == [items[0]] + items[1..];
      match items[0]
      case Write(c) => WriteRead(r, c, items[1..], AfterItems(r, items));
      case Heartbeat => HeartbeatRead(r, items[1..], AfterItems(r, items));
    }
  }

  /**
   The SSE round trip: from any sequence of chunks with heartbeats anywhere, cut anywhere, a standard
   reader decodes exactly the chunks of the items that arrived whole, and its last event ID, fed back
   as a header, resumes right after the last of them. If only heartbeats arrived, it is left with what
   its ID buffer held when the connection was opened.
   */
  lemma {:induction false} SseRoundTrip(lastId: string, idBuffer: string, items: seq<Item>, k: nat)
    requires k <= |Text(items)|
    requires forall i :: 0 <= i < |ChunksOf(items)| ==> Wireable(ChunksOf(items)[i])
    ensures var arrived := ChunksOf(items[..WholeItems(items, k)]);
            var r := Read(Open(lastId, idBuffer), Text(items)[..k]);
            && DecodeAll(r.events) == arrived
            && (arrived == [] ==> r.lastId == if WholeItems(items, k) == 0 then lastId else idBuffer)
            && (arrived != [] ==> r.lastId == Unsigned(arrived[|arrived| - 1].seqNo))
            && (arrived != [] && arrived[|arrived| - 1].seqNo < TWO_TO_64 - 1 ==>
                  ResumeFrom(r.lastId) == arrived[|arrived| - 1].seqNo + 1)
  {
    hide Read;
    hide AfterItems;
    hide DecodeAll;
    hide Wireable;
    var n := WholeItems(items, k);
    var r0, arrived := Open(lastId, idBuffer), ChunksOf(items[..n]);
    CutAnywhere(r0, items, k);
    AfterItemsIs(r0, items[..n]);
    ChunksOfPrefix(items, n);
    assert [] + EventsFor(arrived) == EventsFor(arrived);
    DecodeAllRoundTrip(arrived);
    if arrived != [] && arrived[|arrived| - 1].seqNo < TWO_TO_64 - 1 {
      ResumeAfter(arrived[|arrived| - 1].seqNo);
    }
  }

  lemma {:induction false} ChunksOfPrefix(items: seq<Item>, n: nat)
    requires n <= |items|
    ensures ChunksOf(items[..n]) <= ChunksOf(items)
    decreases n
  {
    if n > 0 {
      assert items[..n][1..] == items[1..][..n - 1];
      ChunksOfPrefix(items[1..], n - 1);
    }
  }

  /** Nothing cut: every chunk arrives. */
  lemma {:induction false} WholeTextArrives(items: seq<Item>)
    ensures WholeItems(items, |Text(items)|) == |items|
    decreases |items|
  {
    hide ItemText;
    if items != [] {
      WholeTextArrives(items[1..]);
    }
  }

  /**
   The standard starts each connection with an empty ID buffer and dispatches at every blank line, so a
   heartbeat before the first event of a reconnection makes such a reader forget its position. It keeps
   or advances the position exactly when it had none, nothing arrived whole, or a chunk did.
   */
  lemma {:induction false} EmptyIdBufferForgetsIff(lastId: string, items: seq<Item>, k: nat)
    requires k <= |Text(items)|
    ensures var n := WholeItems(items, k);
            var arrived := ChunksOf(items[..n]);
            var kept := Read(Open(lastId, lastId), Text(items)[..k]).lastId;
            Read(Open(lastId, ""), Text(items)[..k]).lastId == kept <==> lastId == "" || n == 0 || arrived != []
  {
    hide Read;
    hide AfterItems;
    var n := WholeItems(items, k);
    CutAnywhere(Open(lastId, lastId), items, k);
    CutAnywhere(Open(lastId, ""), items, k);
    AfterItemsIs(Open(lastId, lastId), items[..n]);
    AfterItemsIs(Open(lastId, ""), items[..n]);
  }
}
