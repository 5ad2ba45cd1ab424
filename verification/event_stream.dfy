/**
 Reading an event stream, sections 9.2.5 and 9.2.6 of the WHATWG HTML Living Standard. The wire is
 ASCII, so decoding UTF-8 is the identity and is left out.
 */
module EventStream {

  datatype Event = Event(kind: string, data: string, lastId: string)

  /**
   A reader: the data, event type and last event ID buffers of the stream, the event source's last
   event ID string, and the events dispatched so far.
   */
  datatype Reader = Reader(data: string, eventType: string, idBuffer: string, lastId: string, events: seq<Event>)

  /** A connection opened by a source that remembers `lastId`; `idBuffer` is the buffer's first value. */
  function Open(lastId: string, idBuffer: string): Reader {
    Reader("", "", idBuffer, lastId, [])
  }

  predicate IsEol(c: char) {
    c == '\n' || c == '\r'
  }

  /** Index of the first line end, or the length. */
  function EndOfLine(s: string): (i: nat)
    ensures i <= |s|
    ensures forall k :: 0 <= k < i ==> !IsEol(s[k])
    ensures i < |s| ==> IsEol(s[i])
  {
    if s == "" || IsEol(s[0]) then 0 else 1 + EndOfLine(s[1..])
  }

  /** The complete lines of a stream; CRLF, LF and CR each end one. An unfinished last line is discarded. */
  function Lines(s: string): seq<string>
    decreases |s|
  {
    var i := EndOfLine(s);
    if i == |s| then []
    else
      var next := if s[i] == '\r' && i + 1 < |s| && s[i + 1] == '\n' then i + 2 else i + 1;
      [s[..i]] + Lines(s[next..])
  }

  /** Index of the first colon, or the length. */
  function Colon(s: string): (i: nat)
    ensures i <= |s|
    ensures forall k :: 0 <= k < i ==> s[k] != ':'
    ensures i < |s| ==> s[i] == ':'
  {
    if s == "" || s[0] == ':' then 0 else 1 + Colon(s[1..])
  }

  function StripSpace(s: string): string {
    if s != "" && s[0] == ' ' then s[1..] else s
  }

  function ProcessField(r: Reader, field: string, value: string): Reader {
    if field == "event" then r.(eventType := value)
    else if field == "data" then r.(data := r.data + value + "\n")
    else if field == "id" then (if '\0' in value then r else r.(idBuffer := value))
    else r
  }

  function Dispatch(r: Reader): Reader {
    if r.data == "" then
      r.(lastId := r.idBuffer, eventType := "")
    else
      var text := if r.data[|r.data| - 1] == '\n' then r.data[..|r.data| - 1] else r.data;
      var name := if r.eventType == "" then "message" else r.eventType;
      r.(lastId := r.idBuffer, data := "", eventType := "",
         events := r.events + [Event(name, text, r.idBuffer)])
  }

  function ProcessLine(r: Reader, line: string): Reader {
    if line == "" then Dispatch(r)
    else if line[0] == ':' then r
    else
      var c := Colon(line);
      if c == |line| then ProcessField(r, line, "")
      else ProcessField(r, line[..c], StripSpace(line[c + 1..]))
  }

  function Feed(r: Reader, lines: seq<string>): Reader
    decreases |lines|
  {
    if lines == [] then r else Feed(ProcessLine(r, lines[0]), lines[1..])
  }

  /** Reads whatever arrived of a stream before it ended, cleanly or not. */
  function Read(r: Reader, wire: string): Reader {
    Feed(r, Lines(if wire != "" && wire[0] == '\U{FEFF}' then wire[1..] else wire))
  }

  lemma {:induction false} FeedConcat(r: Reader, a: seq<string>, b: seq<string>)
    ensures Feed(r, a + b) == Feed(Feed(r, a), b)
    decreases |a|
  {
    if a == [] {
      assert a + b == b;
    } else {
      assert (a + b)[1..] == a[1..] + b;
      FeedConcat(ProcessLine(r, a[0]), a[1..], b);
    }
  }

  ghost predicate Clean(line: string) {
    forall i :: 0 <= i < |line| ==> !IsEol(line[i])
  }

  lemma {:induction false} EndOfCleanLine(line: string, rest: string)
    requires Clean(line) && (rest == "" || IsEol(rest[0]))
    ensures EndOfLine(line + rest) == |line|
  {
    assert forall k :: 0 <= k < |line| ==> (line + rest)[k] == line[k];
    assert rest != "" ==> (line + rest)[|line|] == rest[0];
  }

  /** A terminated line splits off; a line cut before its terminator is not a line. */
  lemma {:induction false} FirstLine(line: string, rest: string)
    requires Clean(line)
    ensures Lines(line + "\n" + rest) == [line] + Lines(rest)
    ensures Lines(line) == []
  {
    EndOfCleanLine(line, "\n" + rest);
    var s := line + "\n" + rest;
    assert s == line + ("\n" + rest);
    assert s[..|line|] == line && s[|line| + 1..] == rest;
    EndOfCleanLine(line, "");
    assert line + "" == line;
  }

  /** What a `name: value` line means. */
  lemma {:induction false} FieldLine(r: Reader, name: string, value: string)
    requires name != "" && forall i :: 0 <= i < |name| ==> name[i] != ':'
    ensures ProcessLine(r, name + ": " + value) == ProcessField(r, name, value)
  {
    var line := name + ": " + value;
    assert line[|name|] == ':' && line[0] == name[0];
    assert forall i :: 0 <= i < |name| ==> line[i] == name[i];
    assert Colon(line) == |name|;
    assert line[..|name|] == name;
    assert line[|name| + 1..] == " " + value;
    assert StripSpace(" " + value) == value;
  }
}
