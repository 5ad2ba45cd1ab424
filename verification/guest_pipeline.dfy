/**
 From a child's writes to the adapter's drain, as a transition system: two bounded pipes, two pumps
 sharing one stream behind a mutex, the handler that waits for both and then for the child, a stream
 with a bounded window, the client's forwarding goroutine with its 16-slot channel, and the drainer.
 The stream may break at any moment, which also lets the agent kill the child.
 */
module GuestPipeline {
  import opened ExecTypes

  /** Bytes a pipe holds. */
  const PIPE_BYTES: nat := 65536

  /** Bytes a pump reads at most at once. */
  const READ_BYTES: nat := 4096

  /** Slots of the client's channel. */
  const HOP_SLOTS: nat := 16

  /** One message of the agent's stream. */
  datatype Frame = Frame(stdout: seq<byte>, stderr: seq<byte>, done: bool, exitCode: int32)

  type signal = x: int | 0 <= x < 128

  /** How the child ended, as `Wait` reports it. */
  datatype WaitStatus =
    | Exited(code: byte)
    | Signaled(sig: signal)
    | WaitFailed

  /** Signals follow the shell's 128+n convention; an error that is no exit error reports 0. */
  function ExitCodeOf(w: WaitStatus): int32 {
    match w
    case Exited(code) => code
    case Signaled(sig) => 128 + sig
    case WaitFailed => 0
  }

  /**
   Which endings a caller cannot tell apart by their code: a signal and an exit with 128 plus its number, and
   an exit with 0 and a wait that failed.
   */
  lemma {:induction false} SharedCodes(a: WaitStatus, b: WaitStatus)
    ensures ExitCodeOf(a) == ExitCodeOf(b) <==>
            || a == b
            || (exists n: signal :: a == Exited(128 + n) && b == Signaled(n))
            || (exists n: signal :: a == Signaled(n) && b == Exited(128 + n))
            || (a == Exited(0) && b == WaitFailed) || (a == WaitFailed && b == Exited(0))
  {
    match (a, b)
    case (Exited(c), Signaled(n)) =>
      assert ExitCodeOf(a) == ExitCodeOf(b) ==> a == Exited(128 + n);
    case (Signaled(n), Exited(c)) =>
      assert ExitCodeOf(a) == ExitCodeOf(b) ==> b == Exited(128 + n);
    case _ =>
  }

  /** A pump waits for bytes, or has a chunk it wants to send, or has reported to the handler. */
  datatype Pump = Reading | Sending(chunk: seq<byte>) | Stopped

  datatype Lane = Lane(pipe: seq<byte>, pump: Pump)

  datatype Handler = AwaitOut | AwaitErr | AwaitExit | Ready | Returned

  datatype Holder = Free | ByPump(isErr: bool) | ByHandler

  datatype Client = Receiving | Pushing(frame: Frame) | Closed

  /** A write is a byte and whether it goes to stderr. */
  type Script = seq<(bool, byte)>

  /** `sent` is history: every frame ever put on the stream. */
  datatype State = State(
    window: nat,
    wait: WaitStatus,
    script: Script,
    exited: bool,
    out: Lane,
    err: Lane,
    holder: Holder,
    handler: Handler,
    wire: seq<Frame>,
    broken: bool,
    client: Client,
    hop: seq<Frame>,
    drained: seq<Frame>,
    drainerDone: bool,
    sent: seq<Frame>)

  datatype Event =
    | ChildWrite
    | ChildExit
    | ChildKilled
    | Read(isErr: bool, n: nat)
    | Eof(isErr: bool)
    | Lock(isErr: bool)
    | Send(isErr: bool)
    | HandlerStep
    | LockDone
    | SendDone
    | Break
    | Receive
    | Push
    | ClientEnd
    | Drain
    | DrainEnd

  /** Which party takes a step. */
  datatype Party = Child | Pumps | HandlerParty | Transport

  function PartyOf(e: Event): Party {
    match e
    case ChildWrite => Child
    case ChildExit => Child
    case ChildKilled => Child
    case Read(_, _) => Pumps
    case Eof(_) => Pumps
    case Lock(_) => Pumps
    case Send(_) => Pumps
    case HandlerStep => HandlerParty
    case LockDone => HandlerParty
    case SendDone => HandlerParty
    case _ => Transport
  }

  function Init(script: Script, wait: WaitStatus, window: nat): State {
    State(window, wait, script, false, Lane([], Reading), Lane([], Reading), Free, AwaitOut,
          [], false, Receiving, [], [], false, [])
  }

  function LaneOf(s: State, isErr: bool): Lane {
    if isErr then s.err else s.out
  }

  function WithLane(s: State, isErr: bool, lane: Lane): State {
    if isErr then s.(err := lane) else s.(out := lane)
  }

  function DataFrame(isErr: bool, chunk: seq<byte>): Frame {
    if isErr then Frame([], chunk, false, 0) else Frame(chunk, [], false, 0)
  }

  predicate Enabled(s: State, e: Event) {
    match e
    case ChildWrite => !s.exited && s.script != [] && |LaneOf(s, s.script[0].0).pipe| < PIPE_BYTES
    case ChildExit => !s.exited && s.script == []
    case ChildKilled => !s.exited && s.broken
    case Read(isErr, n) => LaneOf(s, isErr).pump.Reading? && 1 <= n <= Min(READ_BYTES, |LaneOf(s, isErr).pipe|)
    case Eof(isErr) => LaneOf(s, isErr).pump.Reading? && LaneOf(s, isErr).pipe == [] && s.exited
    case Lock(isErr) => LaneOf(s, isErr).pump.Sending? && s.holder == Free
    case Send(isErr) =>
      LaneOf(s, isErr).pump.Sending? && s.holder == ByPump(isErr) && (s.broken || |s.wire| < s.window)
    case HandlerStep =>
      match s.handler {
        case AwaitOut => s.out.pump.Stopped?
        case AwaitErr => s.err.pump.Stopped?
        case AwaitExit => s.exited
        case _ => false
      }
    case LockDone => s.handler == Ready && s.holder == Free
    case SendDone => s.handler == Ready && s.holder == ByHandler && (s.broken || |s.wire| < s.window)
    case Break => !s.broken
    case Receive => s.client.Receiving? && s.wire != []
    case Push => s.client.Pushing? && |s.hop| < HOP_SLOTS
    case ClientEnd => s.client.Receiving? && s.wire == [] && (s.broken || s.handler == Returned)
    case Drain => s.hop != []
    case DrainEnd => s.client.Closed? && s.hop == [] && !s.drainerDone
  }

  /**
   The bounds of the pipeline: a pipe takes 65536 bytes, a pump up to 4096 of them at once, and the client's
   channel 16 frames, each neither more nor less.
   */
  lemma {:induction false} BoundsOfSteps(s: State, isErr: bool, n: nat)
    ensures s.script != [] && !s.exited ==>
              (Enabled(s, ChildWrite) <==> |LaneOf(s, s.script[0].0).pipe| < 65536)
    ensures LaneOf(s, isErr).pump.Reading? ==>
              (Enabled(s, Read(isErr, n)) <==> 1 <= n <= 4096 && n <= |LaneOf(s, isErr).pipe|)
    ensures s.client.Pushing? ==> (Enabled(s, Push) <==> |s.hop| < 16)
  {
  }

  function Next(s: State, e: Event): State
    requires Enabled(s, e)
  {
    match e
    case ChildWrite =>
      var (isErr, b) := s.script[0];
      var lane := LaneOf(s, isErr);
      WithLane(s.(script := s.script[1..]), isErr, lane.(pipe := lane.pipe + [b]))
    case ChildExit => s.(exited := true)
    case ChildKilled => s.(exited := true, script := [])
    case Read(isErr, n) =>
      var lane := LaneOf(s, isErr);
      WithLane(s, isErr, Lane(lane.pipe[n..], Sending(lane.pipe[..n])))
    case Eof(isErr) => WithLane(s, isErr, LaneOf(s, isErr).(pump := Stopped))
    case Lock(isErr) => s.(holder := ByPump(isErr))
    case Send(isErr) =>
      var lane := LaneOf(s, isErr);
      var frame := DataFrame(isErr, lane.pump.chunk);
      if s.broken then WithLane(s.(holder := Free), isErr, lane.(pump := Stopped))
      else WithLane(s.(holder := Free, wire := s.wire + [frame], sent := s.sent + [frame]), isErr,
                    lane.(pump := Reading))
    case HandlerStep =>
      s.(handler := match s.handler case AwaitOut => AwaitErr case AwaitErr => AwaitExit case _ => Ready)
    case LockDone => s.(holder := ByHandler)
    case SendDone =>
      var frame := Frame([], [], true, ExitCodeOf(s.wait));
      if s.broken then s.(holder := Free, handler := Returned)
      else s.(holder := Free, handler := Returned, wire := s.wire + [frame], sent := s.sent + [frame])
    case Break => s.(broken := true, wire := [])
    case Receive => s.(client := Pushing(s.wire[0]), wire := s.wire[1..])
    case Push => s.(client := Receiving, hop := s.hop + [s.client.frame])
    case ClientEnd => s.(client := Closed)
    case Drain => s.(hop := s.hop[1..], drained := s.drained + [s.hop[0]])
    case DrainEnd => s.(drainerDone := true)
  }

  ghost predicate Runs(s: State, events: seq<Event>)
    decreases |events|
  {
    events == [] || (Enabled(s, events[0]) && Runs(Next(s, events[0]), events[1..]))
  }

  ghost function Play(s: State, events: seq<Event>): State
    requires Runs(s, events)
    decreases |events|
  {
    if events == [] then s else Play(Next(s, events[0]), events[1..])
  }

  ghost predicate Finished(s: State) {
    s.exited && s.handler == Returned && s.client.Closed? && s.drainerDone
  }

  // ---------------------------------------------------------------- control

  ghost predicate LaneOk(s: State, isErr: bool) {
    var lane := LaneOf(s, isErr);
    && |lane.pipe| <= PIPE_BYTES
    && (s.holder == ByPump(isErr) ==> lane.pump.Sending?)
    && (lane.pump.Stopped? ==> s.broken || (s.exited && lane.pipe == []))
    && (lane.pump.Sending? ==> 0 < |lane.pump.chunk| <= READ_BYTES)
  }

  ghost predicate Control(s: State) {
    && s.window > 0
    && LaneOk(s, false) && LaneOk(s, true)
    && (s.exited && !s.broken ==> s.script == [])
    && (s.holder == ByHandler ==> s.handler == Ready)
    && (s.handler != AwaitOut ==> s.out.pump.Stopped?)
    && (s.handler != AwaitOut && s.handler != AwaitErr ==> s.err.pump.Stopped?)
    && (s.handler == Ready || s.handler == Returned ==> s.exited)
    && |s.wire| <= s.window && |s.hop| <= HOP_SLOTS
    && (s.broken ==> s.wire == [])
    && (s.client.Closed? ==> s.wire == [] && (s.broken || s.handler == Returned))
    && (s.drainerDone ==> s.client.Closed? && s.hop == [])
  }

  function PumpWeight(p: Pump): nat {
    match p case Reading => 1 case Sending(_) => 7 case Stopped => 0
  }

  function HandlerWeight(h: Handler): nat {
    match h case AwaitOut => 9 case AwaitErr => 8 case AwaitExit => 7 case Ready => 6 case Returned => 0
  }

  function ClientWeight(c: Client): nat {
    match c case Receiving => 1 case Pushing(_) => 4 case Closed => 0
  }

  function Bit(b: bool): nat {
    if b then 1 else 0
  }

  /** Bytes unwritten, in pipes and in flight, weighted by how far they still have to go. */
  function Measure(s: State): nat {
    8 * |s.script| + 7 * |s.out.pipe| + 7 * |s.err.pipe| + PumpWeight(s.out.pump) + PumpWeight(s.err.pump)
    + HandlerWeight(s.handler) + Bit(s.holder == Free) + 4 * |s.wire| + ClientWeight(s.client) + 2 * |s.hop|
    + Bit(!s.exited) + Bit(!s.broken) + Bit(!s.drainerDone)
  }

  lemma {:induction false} ChildKeepsControl(s: State, e: Event)
    requires PartyOf(e) == Child && Control(s) && Enabled(s, e)
    ensures Control(Next(s, e))
  {
  }

  lemma {:induction false} ReadKeepsControl(s: State, e: Event)
    requires (e.Read? || e.Eof?) && Control(s) && Enabled(s, e)
    ensures Control(Next(s, e))
  {
  }

  lemma {:induction false} LockKeepsControl(s: State, e: Event)
    requires (e.Lock? || e.LockDone?) && Control(s) && Enabled(s, e)
    ensures Control(Next(s, e))
  {
  }

  lemma {:induction false} SendKeepsControl(s: State, e: Event)
    requires (e.Send? || e.SendDone?) && Control(s) && Enabled(s, e)
    ensures Control(Next(s, e))
  {
  }

  lemma {:induction false} HandlerStepKeepsControl(s: State)
    requires Control(s) && Enabled(s, HandlerStep)
    ensures Control(Next(s, HandlerStep))
  {
  }

  lemma {:induction false} TransportKeepsControl(s: State, e: Event)
    requires PartyOf(e) == Transport && Control(s) && Enabled(s, e)
    ensures Control(Next(s, e))
  {
    hide LaneOk;
    var t := Next(s, e);
    LaneOkFrame(s, t, false);
    LaneOkFrame(s, t, true);
  }

  lemma {:induction false} LaneOkFrame(s: State, t: State, isErr: bool)
    requires LaneOk(s, isErr) && LaneOf(t, isErr) == LaneOf(s, isErr) && t.holder == s.holder
    requires (s.broken ==> t.broken) && (s.exited ==> t.exited)
    ensures LaneOk(t, isErr)
  {
  }

  lemma {:induction false} NextKeepsControl(s: State, e: Event)
    requires Control(s) && Enabled(s, e)
    ensures Control(Next(s, e))
  {
    hide Control;
    hide Enabled;
    hide Next;
    match e
    case ChildWrite => ChildKeepsControl(s, e);
    case ChildExit => ChildKeepsControl(s, e);
    case ChildKilled => ChildKeepsControl(s, e);
    case Read(_, _) => ReadKeepsControl(s, e);
    case Eof(_) => ReadKeepsControl(s, e);
    case Lock(_) => LockKeepsControl(s, e);
    case LockDone => LockKeepsControl(s, e);
    case Send(_) => SendKeepsControl(s, e);
    case SendDone => SendKeepsControl(s, e);
    case HandlerStep => HandlerStepKeepsControl(s);
    case _ => TransportKeepsControl(s, e);
  }

  lemma {:induction false} PumpsDecrease(s: State, e: Event)
    requires Enabled(s, e) && PartyOf(e) == Pumps
    ensures Measure(Next(s, e)) < Measure(s)
  {
  }

  lemma {:induction false} ChildAndHandlerDecrease(s: State, e: Event)
    requires Enabled(s, e) && (PartyOf(e) == Child || PartyOf(e) == HandlerParty)
    ensures Measure(Next(s, e)) < Measure(s)
  {
  }

  lemma {:induction false} TransportDecreases(s: State, e: Event)
    requires Enabled(s, e) && PartyOf(e) == Transport
    ensures Measure(Next(s, e)) < Measure(s)
  {
  }

  /** Every step brings the call nearer its end. */
  lemma {:induction false} NextDecreases(s: State, e: Event)
    requires Enabled(s, e)
    ensures Measure(Next(s, e)) < Measure(s)
  {
    hide Enabled;
    hide Next;
    hide Measure;
    match PartyOf(e)
    case Pumps => PumpsDecrease(s, e);
    case Transport => TransportDecreases(s, e);
    case _ => ChildAndHandlerDecrease(s, e);
  }

  // ---------------------------------------------------------------- progress

  lemma {:induction false} ChildCanMove(s: State) returns (e: Event)
    requires Control(s) && !s.exited
    requires !s.out.pump.Sending? && !s.err.pump.Sending?
    ensures Enabled(s, e)
  {
    if s.script == [] {
      e := ChildExit;
    } else if |LaneOf(s, s.script[0].0).pipe| < PIPE_BYTES {
      e := ChildWrite;
    } else if LaneOf(s, s.script[0].0).pump.Reading? {
      e := Read(s.script[0].0, 1);
    } else {
      e := ChildKilled;
    }
  }

  lemma {:induction false} LaneCanMove(s: State, isErr: bool) returns (e: Event)
    requires Control(s) && s.exited && s.holder == Free && !LaneOf(s, isErr).pump.Stopped?
    ensures Enabled(s, e)
  {
    var lane := LaneOf(s, isErr);
    if lane.pump.Sending? {
      e := Lock(isErr);
    } else if lane.pipe == [] {
      e := Eof(isErr);
    } else {
      e := Read(isErr, 1);
    }
  }

  /** With room on the stream, or a broken one, the agent can always take a step until its handler returns. */
  lemma {:induction false} AgentCanMove(s: State) returns (e: Event)
    requires Control(s) && (s.broken || |s.wire| < s.window)
    requires !s.exited || s.handler != Returned
    ensures Enabled(s, e)
  {
    if s.holder.ByPump? {
      e := Send(s.holder.isErr);
      assert LaneOk(s, s.holder.isErr);
    } else if s.holder == ByHandler {
      e := SendDone;
    } else if s.out.pump.Sending? {
      e := Lock(false);
    } else if s.err.pump.Sending? {
      e := Lock(true);
    } else if !s.exited {
      e := ChildCanMove(s);
    } else if !s.out.pump.Stopped? {
      e := LaneCanMove(s, false);
    } else if !s.err.pump.Stopped? {
      e := LaneCanMove(s, true);
    } else if s.handler == Ready {
      e := LockDone;
    } else {
      e := HandlerStep;
    }
  }

  lemma {:induction false} SomeStepEnabled(s: State) returns (e: Event)
    requires Control(s) && !Finished(s)
    ensures Enabled(s, e)
  {
    if s.hop != [] {
      e := Drain;
    } else if s.client.Pushing? {
      e := Push;
    } else if s.client.Closed? && !s.drainerDone {
      e := DrainEnd;
    } else if s.client.Receiving? && s.wire != [] {
      e := Receive;
    } else if s.client.Receiving? && (s.broken || s.handler == Returned) {
      e := ClientEnd;
    } else {
      e := AgentCanMove(s);
    }
  }

  lemma {:induction false} PlayKeepsControl(s: State, events: seq<Event>)
    requires Control(s) && Runs(s, events)
    ensures Control(Play(s, events))
    ensures |events| + Measure(Play(s, events)) <= Measure(s)
    decreases |events|
  {
    hide Control;
    hide Next;
    hide Enabled;
    hide Measure;
    if events != [] {
      NextKeepsControl(s, events[0]);
      NextDecreases(s, events[0]);
      PlayKeepsControl(Next(s, events[0]), events[1..]);
    }
  }

  /** What the handlers may assume of a call: any script, any way to end, any positive window. */
  ghost predicate Start(s: State) {
    exists script, wait, window :: s == Init(script, wait, window) && window > 0
  }

  lemma {:induction false} StartHasControl(s: State)
    requires Start(s)
    ensures Control(s)
  {
  }

  /**
   No deadlock and no livelock: from every start, whatever the interleaving and wherever the stream
   breaks, a run has at most `Measure` steps, and a state in which nothing can move is finished.
   */
  lemma {:induction false} EveryRunFinishes(s: State, events: seq<Event>)
    requires Start(s) && Runs(s, events)
    ensures |events| <= Measure(s)
    ensures (forall e :: !Enabled(Play(s, events), e)) ==> Finished(Play(s, events))
  {
    StartHasControl(s);
    PlayKeepsControl(s, events);
    var t := Play(s, events);
    if !Finished(t) {
      var e := SomeStepEnabled(t);
    }
  }

  // ---------------------------------------------------------------- content

  function ScriptOf(isErr: bool, script: Script): seq<byte> {
    if script == [] then []
    else (if script[0].0 == isErr then [script[0].1] else []) + ScriptOf(isErr, script[1..])
  }

  /** The bytes of one stream carried by a sequence of frames. */
  function BytesOf(isErr: bool, frames: seq<Frame>): seq<byte> {
    if frames == [] then []
    else
      var last := frames[|frames| - 1];
      BytesOf(isErr, frames[..|frames| - 1]) + if isErr then last.stderr else last.stdout
  }

  function InFlight(p: Pump): seq<byte> {
    if p.Sending? then p.chunk else []
  }

  /** Whatever one stream's bytes are at: sent, held by the pump, in the pipe, or still to be written. */
  function Everything(s: State, isErr: bool): seq<byte> {
    BytesOf(isErr, s.sent) + InFlight(LaneOf(s, isErr).pump) + LaneOf(s, isErr).pipe + ScriptOf(isErr, s.script)
  }

  lemma {:induction false} BytesSnoc(isErr: bool, frames: seq<Frame>, f: Frame)
    ensures BytesOf(isErr, frames + [f]) == BytesOf(isErr, frames) + if isErr then f.stderr else f.stdout
  {
    assert (frames + [f])[..|frames|] == frames;
  }

  lemma {:induction false} ChildConserves(s: State, isErr: bool)
    requires Control(s) && Enabled(s, ChildWrite)
    ensures Everything(Next(s, ChildWrite), isErr) == Everything(s, isErr)
  {
    hide BytesOf;
    var t, lane := Next(s, ChildWrite), LaneOf(s, isErr);
    var b := if s.script[0].0 == isErr then [s.script[0].1] else [];
    assert ScriptOf(isErr, s.script) == b + ScriptOf(isErr, t.script);
    assert LaneOf(t, isErr).pump == lane.pump && LaneOf(t, isErr).pipe == lane.pipe + b;
    var front := BytesOf(isErr, s.sent) + InFlight(lane.pump);
    assert front + lane.pipe + (b + ScriptOf(isErr, t.script)) == front + (lane.pipe + b) + ScriptOf(isErr, t.script);
  }

  lemma {:induction false} PumpsConserve(s: State, e: Event, isErr: bool)
    requires PartyOf(e) == Pumps && Control(s) && Enabled(s, e) && !s.broken
    ensures Everything(Next(s, e), isErr) == Everything(s, isErr)
  {
    hide BytesOf;
    hide ScriptOf;
    var t, lane := Next(s, e), LaneOf(s, isErr);
    var sent := BytesOf(isErr, s.sent);
    match e
    case Read(other, n) =>
      if other == isErr {
        assert lane.pipe == lane.pipe[..n] + lane.pipe[n..];
        assert sent + [] + lane.pipe == sent + lane.pipe[..n] + lane.pipe[n..];
      }
    case Send(other) =>
      BytesSnoc(isErr, s.sent, DataFrame(other, LaneOf(s, other).pump.chunk));
      assert sent + [] == sent;
      if other == isErr {
        assert BytesOf(isErr, t.sent) + [] == sent + lane.pump.chunk;
      }
    case _ =>
  }

  /** Until the stream breaks no step loses, adds or reorders a byte of either stream. */
  lemma {:induction false} NextConserves(s: State, e: Event, isErr: bool)
    requires Control(s) && Enabled(s, e) && !s.broken && e != Break
    ensures Everything(Next(s, e), isErr) == Everything(s, isErr)
  {
    hide BytesOf;
    hide ScriptOf;
    if e == ChildWrite {
      ChildConserves(s, isErr);
    } else if PartyOf(e) == Pumps {
      PumpsConserve(s, e, isErr);
    } else if e == SendDone {
      BytesSnoc(isErr, s.sent, Frame([], [], true, ExitCodeOf(s.wait)));
      assert BytesOf(isErr, s.sent) + [] == BytesOf(isErr, s.sent);
    }
  }

  ghost predicate IsData(f: Frame) {
    !f.done && (f.stdout == [] <==> f.stderr != []) && |f.stdout| + |f.stderr| <= READ_BYTES
  }

  /** Data frames, each of one stream and not empty. */
  ghost predicate AllData(frames: seq<Frame>) {
    forall i :: 0 <= i < |frames| ==> IsData(frames[i])
  }

  /** Data frames, then Done with the child's exit code. */
  ghost predicate EndsInDone(frames: seq<Frame>, code: int32) {
    frames != [] && AllData(frames[..|frames| - 1]) && frames[|frames| - 1] == Frame([], [], true, code)
  }

  /** What was sent is data, then Done once the handler has returned on an unbroken stream. */
  ghost predicate Shape(s: State) {
    if s.handler == Returned && !s.broken then EndsInDone(s.sent, ExitCodeOf(s.wait))
    else AllData(s.sent) || (s.handler == Returned && EndsInDone(s.sent, ExitCodeOf(s.wait)))
  }

  function Held(c: Client): seq<Frame> {
    if c.Pushing? then [c.frame] else []
  }

  /** Where it is now: drained, in the client's channel, in its hands, or on the wire. */
  ghost predicate Placed(s: State) {
    if s.broken then s.drained + s.hop + Held(s.client) <= s.sent
    else s.drained + s.hop + Held(s.client) + s.wire == s.sent
  }

  ghost predicate Traffic(s: State) {
    Shape(s) && Placed(s)
  }

  lemma {:induction false} SendKeepsShape(s: State, isErr: bool)
    requires LaneOk(s, isErr) && s.handler != Returned && AllData(s.sent) && Enabled(s, Send(isErr))
    ensures AllData(Next(s, Send(isErr)).sent) && Next(s, Send(isErr)).handler == s.handler
  {
  }

  lemma {:induction false} SendDoneKeepsShape(s: State)
    requires Shape(s) && Enabled(s, SendDone)
    ensures Shape(Next(s, SendDone))
  {
    if !s.broken {
      assert Next(s, SendDone).sent[..|s.sent|] == s.sent;
    }
  }

  lemma {:induction false} NextKeepsSent(s: State, e: Event)
    requires Enabled(s, e) && !e.Send? && e != SendDone
    ensures Next(s, e).sent == s.sent && Next(s, e).wait == s.wait && (s.broken ==> Next(s, e).broken)
    ensures s.handler == Returned <==> Next(s, e).handler == Returned
  {
  }

  lemma {:induction false} NextKeepsShape(s: State, e: Event)
    requires Control(s) && Traffic(s) && Enabled(s, e)
    ensures Shape(Next(s, e))
  {
    hide Placed;
    if e.Send? {
      SendKeepsShape(s, e.isErr);
    } else if e == SendDone {
      SendDoneKeepsShape(s);
    } else {
      hide Control;
      hide Next;
      hide AllData;
      hide EndsInDone;
      NextKeepsSent(s, e);
    }
  }

  lemma {:induction false} NextKeepsPlaced(s: State, e: Event)
    requires Control(s) && Traffic(s) && Enabled(s, e)
    ensures Placed(Next(s, e))
  {
    hide Shape;
    assert s.broken ==> s.wire == [];
    hide Control;
    var t, front := Next(s, e), s.drained + s.hop;
    match PartyOf(e)
    case Child =>
    case Transport =>
      TransportKeepsPlaced(s, e);
    case _ =>
      if t.sent != s.sent {
        var f := t.sent[|s.sent|];
        assert t.sent == s.sent + [f] && t.wire == s.wire + [f];
        assert front + Held(s.client) + (s.wire + [f]) == front + Held(s.client) + s.wire + [f];
      }
  }

  lemma {:induction false} TransportKeepsPlaced(s: State, e: Event)
    requires PartyOf(e) == Transport && Traffic(s) && Enabled(s, e)
    requires s.broken ==> s.wire == []
    ensures Placed(Next(s, e))
  {
    hide Shape;
    var t, front := Next(s, e), s.drained + s.hop;
    match e
    case Receive =>
      assert s.wire == Held(t.client) + t.wire;
      assert front + [] + (Held(t.client) + t.wire) == front + Held(t.client) + t.wire;
    case Push =>
      assert s.drained + (s.hop + Held(s.client)) + [] == front + Held(s.client);
    case Drain =>
      assert t.drained + t.hop == front;
    case Break =>
    case ClientEnd =>
    case DrainEnd =>
  }

  lemma {:induction false} NextKeepsTraffic(s: State, e: Event)
    requires Control(s) && Traffic(s) && Enabled(s, e)
    ensures Traffic(Next(s, e))
  {
    hide Shape;
    hide Placed;
    hide Control;
    NextKeepsShape(s, e);
    NextKeepsPlaced(s, e);
  }

  /** The content invariant of a call whose child writes `script`. */
  ghost predicate Content(script: Script, s: State) {
    && Traffic(s)
    && forall isErr :: BytesOf(isErr, s.sent) <= ScriptOf(isErr, script)
                       && (!s.broken ==> Everything(s, isErr) == ScriptOf(isErr, script))
  }

  lemma {:induction false} SentIsPrefix(s: State, isErr: bool)
    ensures BytesOf(isErr, s.sent) <= Everything(s, isErr)
  {
    hide BytesOf;
    hide ScriptOf;
  }

  /** A stream stays broken, and nothing more is put on it. */
  lemma {:induction false} BrokenForGood(s: State, e: Event)
    requires Enabled(s, e)
    ensures s.broken ==> Next(s, e).broken
    ensures Next(s, e).broken ==> Next(s, e).sent == s.sent
  {
  }

  lemma {:induction false} NextKeepsContent(script: Script, s: State, e: Event)
    requires Control(s) && Content(script, s) && Enabled(s, e)
    ensures Content(script, Next(s, e))
  {
    hide Traffic;
    hide BytesOf;
    hide ScriptOf;
    hide Control;
    hide Everything;
    NextKeepsTraffic(s, e);
    BrokenForGood(s, e);
    var t := Next(s, e);
    forall isErr
      ensures BytesOf(isErr, t.sent) <= ScriptOf(isErr, script)
      ensures !t.broken ==> Everything(t, isErr) == ScriptOf(isErr, script)
    {
      if !t.broken {
        NextConserves(s, e, isErr);
        SentIsPrefix(t, isErr);
      }
    }
    hide Next;
  }

  lemma {:induction false} NextKeepsWait(s: State, e: Event)
    requires Enabled(s, e)
    ensures Next(s, e).wait == s.wait
  {
  }

  lemma {:induction false} PlayKeepsContent(script: Script, s: State, events: seq<Event>)
    requires Control(s) && Content(script, s) && Runs(s, events)
    ensures Content(script, Play(s, events)) && Control(Play(s, events))
    ensures Play(s, events).wait == s.wait
    decreases |events|
  {
    hide Control;
    hide Content;
    hide Enabled;
    hide Next;
    if events != [] {
      NextKeepsWait(s, events[0]);
      NextKeepsControl(s, events[0]);
      NextKeepsContent(script, s, events[0]);
      PlayKeepsContent(script, Next(s, events[0]), events[1..]);
    }
  }

  lemma {:induction false} InitHasContent(script: Script, wait: WaitStatus, window: nat)
    requires window > 0
    ensures Content(script, Init(script, wait, window)) && Control(Init(script, wait, window))
  {
    var s := Init(script, wait, window);
    forall isErr ensures Everything(s, isErr) == ScriptOf(isErr, script) {
      assert [] + [] + [] + ScriptOf(isErr, script) == ScriptOf(isErr, script);
    }
  }

  lemma {:induction false} BytesPrefix(isErr: bool, a: seq<Frame>, b: seq<Frame>)
    requires a <= b
    ensures BytesOf(isErr, a) <= BytesOf(isErr, b)
    decreases |b|
  {
    if |a| < |b| {
      assert a <= b[..|b| - 1];
      BytesPrefix(isErr, a, b[..|b| - 1]);
    } else {
      assert a == b;
    }
  }

  /**
   When a run has finished and the stream did not break, the drainer got exactly a merge of the child's
   two outputs, in non-empty frames of one stream each, followed by one Done with its exit code, 128 plus the
   number if a signal ended it, and 0 if waiting for it failed. When the stream
   broke, the drainer got a prefix of what was sent, hence a prefix of each output.
   */
  lemma {:induction false} DrainedIsMerge(script: Script, wait: WaitStatus, window: nat, events: seq<Event>)
    requires window > 0
    requires Runs(Init(script, wait, window), events) && Finished(Play(Init(script, wait, window), events))
    ensures var t := Play(Init(script, wait, window), events);
            && (!t.broken ==>
                  && EndsInDone(t.drained, ExitCodeOf(wait))
                  && (wait.Exited? ==> t.drained[|t.drained| - 1].exitCode == wait.code)
                  && (wait.Signaled? ==> t.drained[|t.drained| - 1].exitCode == 128 + wait.sig)
                  && (wait.WaitFailed? ==> t.drained[|t.drained| - 1].exitCode == 0)
                  && BytesOf(false, t.drained) == ScriptOf(false, script)
                  && BytesOf(true, t.drained) == ScriptOf(true, script))
            && (t.broken ==>
                  && t.drained <= t.sent && (AllData(t.sent) || EndsInDone(t.sent, ExitCodeOf(wait)))
                  && BytesOf(false, t.drained) <= ScriptOf(false, script)
                  && BytesOf(true, t.drained) <= ScriptOf(true, script))
  {
    InitHasContent(script, wait, window);
    PlayKeepsContent(script, Init(script, wait, window), events);
    var t := Play(Init(script, wait, window), events);
    if !t.broken {
      assert t.drained == t.sent;
      assert t.script == [] && t.out.pipe == [] && t.err.pipe == [];
      assert Everything(t, false) == BytesOf(false, t.sent);
      assert Everything(t, true) == BytesOf(true, t.sent);
    } else {
      assert t.hop == [];
      BytesPrefix(false, t.drained, t.sent);
      BytesPrefix(true, t.drained, t.sent);
    }
  }
}
