/**
 Why the agent pumps both pipes in parallel: a reader that takes stdout to its end before it looks at
 stderr gets stuck for exactly the children that write more to stderr than a pipe holds.
 */
module SequentialRead {
  import opened ExecTypes
  import opened GuestPipeline

  datatype Phase = ReadingOut | ReadingErr | AllRead

  datatype Reader = Reader(script: Script, exited: bool, outPipe: seq<byte>, errPipe: seq<byte>, phase: Phase)

  datatype Move = WriteByte | Exit | ReadSome(n: nat) | AtEof

  function Begin(script: Script): Reader {
    Reader(script, false, [], [], ReadingOut)
  }

  function Current(s: Reader): seq<byte> {
    if s.phase == ReadingOut then s.outPipe else s.errPipe
  }

  predicate CanMove(s: Reader, m: Move) {
    match m
    case WriteByte => !s.exited && s.script != [] && |if s.script[0].0 then s.errPipe else s.outPipe| < PIPE_BYTES
    case Exit => !s.exited && s.script == []
    case ReadSome(n) => s.phase != AllRead && 1 <= n <= Min(READ_BYTES, |Current(s)|)
    case AtEof => s.phase != AllRead && Current(s) == [] && s.exited
  }

  function After(s: Reader, m: Move): Reader
    requires CanMove(s, m)
  {
    match m
    case WriteByte =>
      var (isErr, b) := s.script[0];
      if isErr then s.(script := s.script[1..], errPipe := s.errPipe + [b])
      else s.(script := s.script[1..], outPipe := s.outPipe + [b])
    case Exit => s.(exited := true)
    case ReadSome(n) =>
      if s.phase == ReadingOut then s.(outPipe := s.outPipe[n..]) else s.(errPipe := s.errPipe[n..])
    case AtEof => s.(phase := if s.phase == ReadingOut then ReadingErr else AllRead)
  }

  ghost predicate CanPlay(s: Reader, moves: seq<Move>)
    decreases |moves|
  {
    moves == [] || (CanMove(s, moves[0]) && CanPlay(After(s, moves[0]), moves[1..]))
  }

  ghost function AfterAll(s: Reader, moves: seq<Move>): Reader
    requires CanPlay(s, moves)
    decreases |moves|
  {
    if moves == [] then s else AfterAll(After(s, moves[0]), moves[1..])
  }

  /** Nothing can move, and not everything was read. */
  ghost predicate Stuck(s: Reader) {
    s.phase != AllRead && forall m :: !CanMove(s, m)
  }

  /** `total` bytes of stderr in all: none is read before the child exits. */
  ghost predicate ReaderInv(s: Reader, total: nat) {
    && |s.outPipe| <= PIPE_BYTES && |s.errPipe| <= PIPE_BYTES
    && (s.exited ==> s.script == [])
    && (s.phase != ReadingOut ==> s.exited && s.outPipe == [])
    && (s.phase == AllRead ==> s.errPipe == [])
    && (s.phase == ReadingOut ==> |s.errPipe| + |ScriptOf(true, s.script)| == total)
  }

  lemma {:induction false} MoveKeepsInv(s: Reader, m: Move, total: nat)
    requires ReaderInv(s, total) && CanMove(s, m)
    ensures ReaderInv(After(s, m), total)
  {
    if m == WriteByte {
      assert ScriptOf(true, s.script) == (if s.script[0].0 then [s.script[0].1] else []) + ScriptOf(true, s.script[1..]);
    }
  }

  lemma {:induction false} MovesKeepInv(s: Reader, moves: seq<Move>, total: nat)
    requires ReaderInv(s, total) && CanPlay(s, moves)
    ensures ReaderInv(AfterAll(s, moves), total)
    decreases |moves|
  {
    hide ReaderInv;
    hide CanMove;
    hide After;
    if moves != [] {
      MoveKeepsInv(s, moves[0], total);
      MovesKeepInv(After(s, moves[0]), moves[1..], total);
    }
  }

  /** With stderr no larger than a pipe the reader is never stuck. */
  lemma {:induction false} SmallNeverStuck(s: Reader, total: nat)
    requires ReaderInv(s, total) && total <= PIPE_BYTES
    ensures !Stuck(s)
  {
    if s.phase != AllRead {
      if Current(s) != [] {
        assert CanMove(s, ReadSome(1));
      } else if s.exited {
        assert CanMove(s, AtEof);
      } else if s.script == [] {
        assert CanMove(s, Exit);
      } else {
        assert s.script[0].0 ==> |ScriptOf(true, s.script)| > 0;
        assert CanMove(s, WriteByte);
      }
    }
  }

  /** With more, the child never exits, so stderr is never read. */
  lemma {:induction false} LargeNeverExits(s: Reader, total: nat)
    requires ReaderInv(s, total) && total > PIPE_BYTES && !s.exited
    ensures s.phase == ReadingOut
    ensures forall m :: CanMove(s, m) ==> !After(s, m).exited
  {
  }

  function Remaining(s: Reader): nat {
    2 * |s.script| + |s.outPipe| + |s.errPipe| + (if s.exited then 0 else 1)
    + (match s.phase case ReadingOut => 2 case ReadingErr => 1 case AllRead => 0)
  }

  lemma {:induction false} MoveDecreases(s: Reader, m: Move)
    requires CanMove(s, m)
    ensures Remaining(After(s, m)) < Remaining(s)
  {
  }

  lemma {:induction false} LargeGetsStuck(s: Reader, total: nat) returns (moves: seq<Move>)
    requires ReaderInv(s, total) && total > PIPE_BYTES && !s.exited
    ensures CanPlay(s, moves) && Stuck(AfterAll(s, moves))
    decreases Remaining(s)
  {
    hide CanMove;
    hide ReaderInv;
    LargeNeverExits(s, total);
    if m :| CanMove(s, m) {
      MoveKeepsInv(s, m, total);
      MoveDecreases(s, m);
      var rest := LargeGetsStuck(After(s, m), total);
      moves := [m] + rest;
      assert moves[1..] == rest;
    } else {
      moves := [];
    }
  }

  /** A reader that ends without getting stuck has read everything the child wrote. */
  lemma {:induction false} AllReadIsAll(script: Script, moves: seq<Move>)
    requires CanPlay(Begin(script), moves) && AfterAll(Begin(script), moves).phase == AllRead
    ensures var s := AfterAll(Begin(script), moves); s.exited && s.script == [] && s.outPipe == [] && s.errPipe == []
    ensures |ScriptOf(true, script)| <= 65536
  {
    hide CanMove;
    var total := |ScriptOf(true, script)|;
    MovesKeepInv(Begin(script), moves, total);
    if total > PIPE_BYTES {
      LargeNeverEnds(Begin(script), moves, total);
    }
  }

  lemma {:induction false} LargeNeverEnds(s: Reader, moves: seq<Move>, total: nat)
    requires ReaderInv(s, total) && total > PIPE_BYTES && !s.exited && CanPlay(s, moves)
    ensures !AfterAll(s, moves).exited
    decreases |moves|
  {
    hide CanMove;
    hide ReaderInv;
    hide After;
    if moves != [] {
      LargeNeverExits(s, total);
      MoveKeepsInv(s, moves[0], total);
      LargeNeverEnds(After(s, moves[0]), moves[1..], total);
    }
  }

  /** The sequential reader can reach a stuck state exactly when stderr exceeds what a pipe holds. */
  lemma {:induction false} SequentialReadSticksIff(script: Script)
    ensures (exists moves :: CanPlay(Begin(script), moves) && Stuck(AfterAll(Begin(script), moves)))
            <==> |ScriptOf(true, script)| > 65536
  {
    hide CanMove;
    hide Stuck;
    var total := |ScriptOf(true, script)|;
    assert ReaderInv(Begin(script), total);
    if total > PIPE_BYTES {
      var moves := LargeGetsStuck(Begin(script), total);
    } else {
      forall moves | CanPlay(Begin(script), moves) ensures !Stuck(AfterAll(Begin(script), moves)) {
        MovesKeepInv(Begin(script), moves, total);
        SmallNeverStuck(AfterAll(Begin(script), moves), total);
      }
    }
  }
}
