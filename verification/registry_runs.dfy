/**
 All runs of the registry over its table: registrations whose steps interleave, drains, final writes that
 may fail, deletions, crashes, and the reconciliation at startup.
 */
module RegistryRuns {
  import opened ExecTypes
  import opened ExecLog
  import opened ExecRows
  import opened RegistryStore

  /** Identifies one record object and the call that owns it. */
  type Rid = nat

  /** In memory with its INSERT to come; refused, to be rolled back; registered; its drain has ended. */
  datatype Phase = Inserting | RollingBack | Live | Ended

  /** A record and its owner. `row` is what the INSERT writes; `stored` says a final write was attempted. */
  datatype Owner = Owner(id: string, row: Row, phase: Phase, log: Log, stored: bool)

  datatype Mode = Serving | Down | Starting

  /** `lost` is history: ids whose last final write failed. */
  datatype World = World(
    mode: Mode,
    store: Store<Rid>,
    owners: map<Rid, Owner>,
    execs: map<string, Row>,
    sandboxes: set<string>,
    lost: set<string>)

  datatype Event =
    | NewSandbox(sandbox: string)
    | InsertMemory(rid: Rid, id: string, row: Row)
    | InsertTable(rid: Rid, fault: bool)
    | Rollback(rid: Rid)
    | Work(rid: Rid, op: Op)
    | StoreFinal(rid: Rid, fault: bool)
    | EndDrain(rid: Rid)
    | DeleteBySandbox(sandbox: string)
    | Crash
    | Restart
    | Reconcile(now: int, fault: bool)

  function Init(): World {
    World(Down, EmptyStore(), map[], map[], {}, {})
  }

  predicate InPhase(w: World, rid: Rid, phase: Phase) {
    rid in w.owners && w.owners[rid].phase == phase
  }

  ghost predicate Enabled(w: World, e: Event) {
    match e
    case NewSandbox(_) => w.mode == Serving
    case InsertMemory(rid, id, row) => w.mode == Serving && rid !in w.owners && FreshRow(row)
    case InsertTable(rid, _) => InPhase(w, rid, Inserting)
    case Rollback(rid) => InPhase(w, rid, RollingBack)
    case Work(rid, op) => InPhase(w, rid, Live) && Proper(op)
    case StoreFinal(rid, _) => InPhase(w, rid, Live) && w.owners[rid].log.status != Running
    case EndDrain(rid) => InPhase(w, rid, Live) && w.owners[rid].stored
    case DeleteBySandbox(_) => w.mode == Serving
    case Crash => w.mode != Down
    case Restart => w.mode == Down
    case Reconcile(_, _) => w.mode == Starting
  }

  function Accepted(w: World, o: Owner, fault: bool): bool {
    !fault && o.id !in w.execs && o.row.sandboxID in w.sandboxes
  }

  function WithPhase(w: World, rid: Rid, phase: Phase): World
    requires rid in w.owners
  {
    w.(owners := w.owners[rid := w.owners[rid].(phase := phase)])
  }

  /** A colliding id registers nothing. Nothing but the table survives a crash. */
  function Next(w: World, e: Event): World
    requires Enabled(w, e)
  {
    match e
    case NewSandbox(sandbox) => w.(sandboxes := w.sandboxes + {sandbox})
    case InsertMemory(rid, id, row) =>
      if id in w.store.records then w
      else w.(store := InsertRecord(w.store, row.sandboxID, id, rid),
              owners := w.owners[rid := Owner(id, row, Inserting, FreshLog(row.maxOutputBytes), false)])
    case InsertTable(rid, fault) =>
      var o := w.owners[rid];
      if Accepted(w, o, fault) then WithPhase(w, rid, Live).(execs := w.execs[o.id := o.row])
      else WithPhase(w, rid, RollingBack)
    case Rollback(rid) =>
      var o := w.owners[rid];
      WithPhase(w, rid, Ended).(store := RemoveRecord(w.store, o.row.sandboxID, o.id))
    case Work(rid, op) =>
      w.(owners := w.owners[rid := w.owners[rid].(log := Step(w.owners[rid].log, op))])
    case StoreFinal(rid, fault) =>
      var o := w.owners[rid];
      var w' := w.(owners := w.owners[rid := o.(stored := true)]);
      if fault || o.id !in w.execs then w'.(lost := w.lost + {o.id})
      else w'.(execs := w.execs[o.id := FinalRow(w.execs[o.id], o.log)], lost := w.lost - {o.id})
    case EndDrain(rid) => WithPhase(w, rid, Ended)
    case DeleteBySandbox(sandbox) => w.(store := DropSandbox(w.store, sandbox))
    case Crash => w.(mode := Down, store := EmptyStore(), owners := map[])
    case Restart => w.(mode := Starting)
    case Reconcile(now, fault) =>
      if fault then w.(mode := Down)
      else w.(mode := Serving, lost := {}, execs := map id | id in w.execs :: ReconcileRow(w.execs[id], now))
  }

  ghost function Play(w: World, events: seq<Event>): World {
    if events == [] then w
    else
      var before := Play(w, events[..|events| - 1]);
      var e := events[|events| - 1];
      if Enabled(before, e) then Next(before, e) else before
  }

  // ---------------------------------------------------------------- rows and their owners

  /** The row shows the record's terminal fields. */
  predicate Agrees(row: Row, l: Log) {
    && row.status == StatusText(l.status) && row.exitCode == Some(l.exitCode)
    && row.completionErr == NullIfEmpty(l.completionErr)
  }

  /** The row may still be written by this owner. */
  predicate Writes(o: Owner, id: string) {
    o.phase == Live && o.id == id
  }

  /** A live owner still has to finish this exec or to store its end. */
  ghost predicate Attended(w: World, id: string) {
    exists rid :: rid in w.owners && Writes(w.owners[rid], id)
                  && (w.owners[rid].log.status == Running || !w.owners[rid].stored)
  }

  predicate KnownStatus(row: Row) {
    row.status == "running" || row.status == "completed" || row.status == "errored"
  }

  ghost predicate RowsOk(w: World) {
    && (forall id | id in w.execs :: KnownStatus(w.execs[id]))
    && (forall rid | rid in w.owners && w.owners[rid].phase == Live ::
          && w.owners[rid].id in w.execs
          && (w.execs[w.owners[rid].id].status != "running" ==>
                w.owners[rid].log.status != Running && Agrees(w.execs[w.owners[rid].id], w.owners[rid].log)))
  }

  /** No two live owners share an id: each row has at most one record that can write it. */
  ghost predicate OneWriter(w: World) {
    forall r, s | r in w.owners && s in w.owners ::
      w.owners[r].phase == Live && w.owners[s].phase == Live && w.owners[r].id == w.owners[s].id ==> r == s
  }

  ghost predicate RunningExplained(w: World) {
    w.mode == Serving ==>
      forall id | id in w.execs && w.execs[id].status == "running" :: Attended(w, id) || id in w.lost
  }

  ghost predicate FreshOwners(w: World) {
    && (w.mode != Serving ==> w.owners == map[] && w.store == EmptyStore())
    && (forall rid | rid in w.owners :: FreshRow(w.owners[rid].row))
    && (forall rid | rid in w.owners && w.owners[rid].phase == Inserting ::
          w.owners[rid].log.status == Running && !w.owners[rid].stored)
    && (forall rid | rid in w.owners && w.owners[rid].stored :: w.owners[rid].log.status != Running)
  }

  ghost predicate Inv(w: World) {
    RowsOk(w) && OneWriter(w) && FreshOwners(w) && RunningExplained(w)
  }

  lemma {:induction false} StepStatus(l: Log, op: Op)
    requires Proper(op)
    ensures l.status != Running ==>
              Step(l, op).status == l.status && Step(l, op).exitCode == l.exitCode
              && Step(l, op).completionErr == l.completionErr
  {
  }

  lemma {:induction false} NextKeepsFreshOwners(w: World, e: Event)
    requires FreshOwners(w) && Enabled(w, e)
    ensures FreshOwners(Next(w, e))
  {
    hide Step;
    hide InsertRecord;
    hide RemoveRecord;
    hide DropSandbox;
    if e.Work? {
      StepStatus(w.owners[e.rid].log, e.op);
    }
  }

  lemma {:induction false} WorkKeepsRowsOk(w: World, rid: Rid, op: Op)
    requires RowsOk(w) && OneWriter(w) && Enabled(w, Work(rid, op))
    ensures RowsOk(Next(w, Work(rid, op))) && OneWriter(Next(w, Work(rid, op)))
  {
    StepStatus(w.owners[rid].log, op);
    hide Step;
  }

  lemma {:induction false} ReconcileKeepsRowsOk(w: World, now: int, fault: bool)
    requires RowsOk(w) && OneWriter(w) && FreshOwners(w) && Enabled(w, Reconcile(now, fault))
    ensures RowsOk(Next(w, Reconcile(now, fault))) && OneWriter(Next(w, Reconcile(now, fault)))
  {
  }

  lemma {:induction false} NextKeepsRowsOk(w: World, e: Event)
    requires RowsOk(w) && OneWriter(w) && FreshOwners(w) && Enabled(w, e)
    ensures RowsOk(Next(w, e)) && OneWriter(Next(w, e))
  {
    match e
    case InsertTable(rid, fault) => InsertKeepsRowsOk(w, rid, fault);
    case Work(rid, op) => WorkKeepsRowsOk(w, rid, op);
    case StoreFinal(rid, fault) => StoreKeepsRowsOk(w, rid, fault);
    case Reconcile(now, fault) => ReconcileKeepsRowsOk(w, now, fault);
    case _ =>
      hide FreshOwners;
      hide InsertRecord;
      hide RemoveRecord;
      hide DropSandbox;
      hide Agrees;
  }

  lemma {:induction false} InsertKeepsRowsOk(w: World, rid: Rid, fault: bool)
    requires RowsOk(w) && OneWriter(w) && FreshOwners(w) && Enabled(w, InsertTable(rid, fault))
    ensures RowsOk(Next(w, InsertTable(rid, fault))) && OneWriter(Next(w, InsertTable(rid, fault)))
  {
    var t := Next(w, InsertTable(rid, fault));
    forall r | r in t.owners && t.owners[r].phase == Live
      ensures t.owners[r].id in t.execs
      ensures t.execs[t.owners[r].id].status != "running" ==>
                t.owners[r].log.status != Running && Agrees(t.execs[t.owners[r].id], t.owners[r].log)
    {
      if r != rid {
        assert w.owners[r].id in w.execs;
      }
    }
  }

  lemma {:induction false} StoreKeepsRowsOk(w: World, rid: Rid, fault: bool)
    requires RowsOk(w) && OneWriter(w) && Enabled(w, StoreFinal(rid, fault))
    ensures RowsOk(Next(w, StoreFinal(rid, fault))) && OneWriter(Next(w, StoreFinal(rid, fault)))
  {
    var t := Next(w, StoreFinal(rid, fault));
    forall r | r in t.owners && t.owners[r].phase == Live
      ensures t.owners[r].id in t.execs
      ensures t.execs[t.owners[r].id].status != "running" ==>
                t.owners[r].log.status != Running && Agrees(t.execs[t.owners[r].id], t.owners[r].log)
    {
      if r != rid {
        assert w.owners[r].id != w.owners[rid].id;
      }
    }
  }

  lemma {:induction false} StillAttended(w: World, t: World, id: string, rid: Rid)
    requires rid in t.owners && Writes(t.owners[rid], id)
    requires t.owners[rid].log.status == Running || !t.owners[rid].stored
    ensures Attended(t, id)
  {
  }

  lemma {:induction false} NextKeepsRunningExplained(w: World, e: Event)
    requires Inv(w) && Enabled(w, e)
    ensures RunningExplained(Next(w, e))
  {
    hide Step;
    var t := Next(w, e);
    if t.mode == Serving && !e.Reconcile? {
      forall id | id in t.execs && t.execs[id].status == "running" ensures Attended(t, id) || id in t.lost {
        if e.InsertTable? && id !in w.execs {
          StillAttended(w, t, id, e.rid);
        } else {
          assert w.execs[id].status == "running";
          if id !in t.lost {
            if id in w.lost {
              StoredOrLost(w, e, id);
            }
            KeepsAttended(w, e, id);
          }
        }
      }
    }
  }

  /** A final write leaves the row terminal or its id among the lost; nothing else gives up a lost id while serving. */
  lemma {:induction false} StoredOrLost(w: World, e: Event, id: string)
    requires Enabled(w, e) && id in w.lost && id !in Next(w, e).lost && !e.Reconcile?
    ensures id in Next(w, e).execs && Next(w, e).execs[id].status != "running"
  {
  }

  ghost predicate Busy(w: World, rid: Rid) {
    InPhase(w, rid, Live) && (w.owners[rid].log.status == Running || !w.owners[rid].stored)
  }

  lemma {:induction false} BusyStays(w: World, e: Event, rid: Rid)
    requires FreshOwners(w) && Enabled(w, e) && Busy(w, rid) && Next(w, e).mode == w.mode == Serving
    requires !(e.StoreFinal? && e.rid == rid)
    ensures Busy(Next(w, e), rid) && Next(w, e).owners[rid].id == w.owners[rid].id
  {
    hide Step;
    hide InsertRecord;
    hide RemoveRecord;
    hide DropSandbox;
  }

  /** An owner that has not stored the end of a running row stays until it has tried. */
  lemma {:induction false} KeepsAttended(w: World, e: Event, id: string)
    requires Inv(w) && Enabled(w, e) && w.mode == Serving && Next(w, e).mode == Serving
    requires id in w.execs && w.execs[id].status == "running" && Attended(w, id)
    requires id in Next(w, e).execs && Next(w, e).execs[id].status == "running" && id !in Next(w, e).lost
    ensures Attended(Next(w, e), id)
  {
    var rid :| rid in w.owners && Writes(w.owners[rid], id)
               && (w.owners[rid].log.status == Running || !w.owners[rid].stored);
    hide RowsOk;
    hide OneWriter;
    hide RunningExplained;
    if !(e.StoreFinal? && e.rid == rid) {
      hide Enabled;
      hide Next;
      BusyStays(w, e, rid);
      StillAttended(w, Next(w, e), id, rid);
    }
  }

  lemma {:induction false} NextKeepsInv(w: World, e: Event)
    requires Inv(w) && Enabled(w, e)
    ensures Inv(Next(w, e))
  {
    hide Next;
    NextKeepsFreshOwners(w, e);
    NextKeepsRowsOk(w, e);
    NextKeepsRunningExplained(w, e);
  }

  lemma {:induction false} PlayKeepsInv(w: World, events: seq<Event>)
    requires Inv(w)
    ensures Inv(Play(w, events))
    decreases |events|
  {
    hide Inv;
    hide Next;
    hide Enabled;
    if events != [] {
      PlayKeepsInv(w, events[..|events| - 1]);
      var before := Play(w, events[..|events| - 1]);
      if Enabled(before, events[|events| - 1]) {
        NextKeepsInv(before, events[|events| - 1]);
      }
    }
  }

  // ---------------------------------------------------------------- main results

  /** Over every run a running row has a live owner that still has work to do, or a failed final write behind it. */
  lemma {:induction false} RunningRowsAreExplained(events: seq<Event>, id: string)
    requires var w := Play(Init(), events); w.mode == Serving && id in w.execs && w.execs[id].status == "running"
    ensures var w := Play(Init(), events); Attended(w, id) || id in w.lost
  {
    PlayKeepsInv(Init(), events);
  }

  /** Each row has at most one live record able to write it, over every run. */
  lemma {:induction false} AtMostOneWriter(events: seq<Event>, r: Rid, s: Rid)
    requires var w := Play(Init(), events);
             InPhase(w, r, Live) && InPhase(w, s, Live) && w.owners[r].id == w.owners[s].id
    ensures r == s && Play(Init(), events).owners[r].id in Play(Init(), events).execs
  {
    PlayKeepsInv(Init(), events);
  }

  /** Serving starts with no row left running. */
  lemma {:induction false} ReconcileLeavesNoneRunning(events: seq<Event>, now: int)
    requires Play(Init(), events).mode == Starting
    ensures var w := Next(Play(Init(), events), Reconcile(now, false));
            w.mode == Serving && w.owners == map[]
            && (forall id :: id in w.execs ==> w.execs[id].status == "completed" || w.execs[id].status == "errored")
    ensures var before, after := Play(Init(), events).execs, Next(Play(Init(), events), Reconcile(now, false)).execs;
            && after.Keys == before.Keys
            && (forall id | id in before && before[id].status != "running" :: after[id] == before[id])
            && (forall id | id in before && before[id].status == "running" ::
                  after[id] == before[id].(status := "errored", exitCode := Some(-1),
                                           completionErr := Some("adapter_restarted"), completedAt := Some(now)))
  {
    PlayKeepsInv(Init(), events);
  }

  /** This step is a final write of that exec, and fails. */
  ghost predicate FailedWrite(w: World, e: Event, id: string) {
    e.StoreFinal? && Enabled(w, e) && w.owners[e.rid].id == id && (e.fault || id !in w.execs)
  }

  ghost predicate Reconciles(w: World, e: Event) {
    e.Reconcile? && Enabled(w, e) && !e.fault
  }

  /** The failed write at `i` was followed by no reconciliation. */
  ghost predicate LostAt(events: seq<Event>, i: nat, id: string) {
    && i < |events| && FailedWrite(Play(Init(), events[..i]), events[i], id)
    && forall k :: i < k < |events| ==> !Reconciles(Play(Init(), events[..k]), events[k])
  }

  /** Only a failed final write since the last reconciliation makes an exec count as lost. */
  lemma {:induction false} LostMeansFailedWrite(events: seq<Event>, id: string)
    requires id in Play(Init(), events).lost
    ensures exists i: nat :: LostAt(events, i, id)
    decreases |events|
  {
    hide Step;
    hide FailedWrite;
    hide Reconciles;
    if events != [] {
      var front, e := events[..|events| - 1], events[|events| - 1];
      var before := Play(Init(), front);
      if id in before.lost {
        LostMeansFailedWrite(front, id);
        var i: nat :| LostAt(front, i, id);
        assert forall k :: i <= k < |front| ==> front[..k] == events[..k] && front[k] == events[k];
        StillLost(before, e, id);
        assert LostAt(events, i, id);
      } else {
        LostBy(before, e, id);
        assert LostAt(events, |front|, id);
      }
    }
  }

  lemma {:induction false} StillLost(w: World, e: Event, id: string)
    requires Enabled(w, e) ==> id in Next(w, e).lost
    ensures !Reconciles(w, e)
  {
  }

  lemma {:induction false} LostBy(w: World, e: Event, id: string)
    requires Enabled(w, e) && id !in w.lost && id in Next(w, e).lost
    ensures FailedWrite(w, e, id)
  {
  }

  ghost predicate SandboxesKnown(w: World) {
    forall id | id in w.execs :: w.execs[id].sandboxID in w.sandboxes
  }

  /** The foreign key: over every run each row belongs to a sandbox that was there when it was inserted. */
  lemma {:induction false} RowsHaveTheirSandbox(events: seq<Event>)
    ensures SandboxesKnown(Play(Init(), events))
    decreases |events|
  {
    hide Next;
    hide Enabled;
    if events != [] {
      var front, e := events[..|events| - 1], events[|events| - 1];
      RowsHaveTheirSandbox(front);
      if Enabled(Play(Init(), front), e) {
        NextKeepsSandboxes(Play(Init(), front), e);
      }
    }
  }

  lemma {:induction false} NextKeepsSandboxes(w: World, e: Event)
    requires SandboxesKnown(w) && Enabled(w, e)
    ensures SandboxesKnown(Next(w, e))
  {
    hide Step;
  }

  // ---------------------------------------------------------------- an exec without faults

  lemma {:induction false} PlayConcat(w: World, a: seq<Event>, b: seq<Event>)
    ensures Play(w, a + b) == Play(Play(w, a), b)
    decreases |b|
  {
    if b == [] {
      assert a + b == a;
    } else {
      assert (a + b)[..|a + b| - 1] == a + b[..|b| - 1];
      PlayConcat(w, a, b[..|b| - 1]);
    }
  }

  lemma {:induction false} PlayOne(w: World, e: Event)
    requires Enabled(w, e)
    ensures Play(w, [e]) == Next(w, e)
  {
    hide Next;
    assert [e][..0] == [];
  }

  function Works(rid: Rid, ops: seq<Op>): seq<Event> {
    seq(|ops|, i requires 0 <= i < |ops| => Work(rid, ops[i]))
  }

  lemma {:induction false} WorksRun(w: World, rid: Rid, ops: seq<Op>)
    requires InPhase(w, rid, Live) && AllProper(ops)
    ensures Play(w, Works(rid, ops)) ==
            w.(owners := w.owners[rid := w.owners[rid].(log := Run(w.owners[rid].log, ops))])
    decreases |ops|
  {
    if ops == [] {
      assert w.owners[rid := w.owners[rid]] == w.owners;
    } else {
      var front := ops[..|ops| - 1];
      WorksRun(w, rid, front);
      assert Works(rid, ops)[..|front|] == Works(rid, front);
      hide Step;
      var t := Play(w, Works(rid, front));
      assert t.owners[rid := Next(t, Work(rid, ops[|front|])).owners[rid]] ==
             w.owners[rid := w.owners[rid].(log := Run(w.owners[rid].log, ops))];
    }
  }

  /**
   With no fault and nobody in between, an exec with a new id of a known sandbox is registered, found in memory
   while it runs, and leaves exactly its record's final row in the table.
   */
  lemma {:induction false} ExecRunsThrough(w: World, rid: Rid, id: string, row: Row, ops: seq<Op>)
    requires w.mode == Serving && rid !in w.owners && id !in w.store.records && id !in w.execs
    requires FreshRow(row) && row.sandboxID in w.sandboxes
    requires AllProper(ops) && Run(FreshLog(row.maxOutputBytes), ops).status != Running
    ensures var t := Play(w, [InsertMemory(rid, id, row)] + [InsertTable(rid, false)] + Works(rid, ops)
                             + [StoreFinal(rid, false)] + [EndDrain(rid)]);
            && t.execs == w.execs[id := FinalRow(row, Run(FreshLog(row.maxOutputBytes), ops))]
            && t.mode == Serving && id in t.store.records && t.store.records[id] == rid && id !in t.lost
            && t.sandboxes == w.sandboxes
  {
    hide Run;
    hide FinalRow;
    hide Works;
    var e1, e2, e3 := [InsertMemory(rid, id, row)], [InsertTable(rid, false)], Works(rid, ops);
    var e4, e5 := [StoreFinal(rid, false)], [EndDrain(rid)];
    PlayConcat(w, e1, e2);
    PlayConcat(w, e1 + e2, e3);
    PlayConcat(w, e1 + e2 + e3, e4);
    PlayConcat(w, e1 + e2 + e3 + e4, e5);
    hide Play;
    PlayOne(w, e1[0]);
    var w1 := Next(w, e1[0]);
    PlayOne(w1, e2[0]);
    var w2 := Next(w1, e2[0]);
    WorksRun(w2, rid, ops);
    var w3 := Play(w2, e3);
    PlayOne(w3, e4[0]);
    var w4 := Next(w3, e4[0]);
    PlayOne(w4, e5[0]);
    assert w2.execs == w.execs[id := row] == w3.execs;
    assert w4.execs == w.execs[id := FinalRow(row, Run(FreshLog(row.maxOutputBytes), ops))];
  }

  /** Terminal status, exit code and error stay as they are. */
  ghost predicate Settled(before: Row, after: Row) {
    && after.status == before.status && after.exitCode == before.exitCode
    && after.completionErr == before.completionErr
  }

  /** A row is never dropped, and once terminal it is settled. */
  ghost predicate RowsAdvance(before: map<string, Row>, after: map<string, Row>) {
    forall id | id in before :: id in after && (before[id].status != "running" ==> Settled(before[id], after[id]))
  }

  lemma {:induction false} NextAdvancesRows(w: World, e: Event)
    requires Inv(w) && Enabled(w, e)
    ensures RowsAdvance(w.execs, Next(w, e).execs)
  {
    hide Step;
    hide RunningExplained;
    hide InsertRecord;
    hide RemoveRecord;
    hide DropSandbox;
  }

  /**
   Status only moves from running to terminal, and a terminal row's status, exit code and error never
   change again, although the final UPDATE has no status guard: over every run, crashes included.
   */
  lemma {:induction false} TerminalRowsAreStable(events: seq<Event>, later: seq<Event>)
    ensures RowsAdvance(Play(Init(), events).execs, Play(Init(), events + later).execs)
    decreases |later|
  {
    hide Next;
    hide Enabled;
    hide Inv;
    if later == [] {
      assert events + later == events;
    } else {
      var front, all := later[..|later| - 1], events + later;
      TerminalRowsAreStable(events, front);
      assert all[..|all| - 1] == events + front;
      assert Inv(Init()) by { InitInv(); }
      PlayKeepsInv(Init(), events + front);
      var before := Play(Init(), events + front);
      if Enabled(before, all[|all| - 1]) {
        NextAdvancesRows(before, all[|all| - 1]);
      }
    }
  }

  lemma {:induction false} InitInv()
    ensures Inv(Init())
  {
  }

  // ---------------------------------------------------------------- the index

  /** No other registration of this id is between its insertion and its end. */
  ghost predicate DistinctInFlight(w: World, e: Event) {
    e.InsertMemory? ==>
      forall rid | rid in w.owners && w.owners[rid].id == e.id ::
        w.owners[rid].phase != Inserting && w.owners[rid].phase != RollingBack
  }

  ghost predicate InFlight(o: Owner) {
    o.phase == Inserting || o.phase == RollingBack
  }

  ghost predicate Owned(w: World) {
    forall id | id in w.store.records ::
      w.store.records[id] in w.owners && w.owners[w.store.records[id]].id == id
  }

  ghost function SandboxOf(w: World): map<string, string>
    requires Owned(w)
  {
    map id | id in w.store.records :: w.owners[w.store.records[id]].row.sandboxID
  }

  /** Memory maps an id in flight to the very call that is in flight. */
  ghost predicate FlightOk(w: World) {
    && (forall rid | rid in w.owners && InFlight(w.owners[rid]) && w.owners[rid].id in w.store.records ::
          w.store.records[w.owners[rid].id] == rid)
    && (forall r, s | r in w.owners && s in w.owners ::
          InFlight(w.owners[r]) && InFlight(w.owners[s]) && w.owners[r].id == w.owners[s].id ==> r == s)
  }

  /** The sandbox index is the exact inverse of the record map, with no empty sets. */
  ghost predicate IndexExact(w: World) {
    Owned(w) && ExactIndex(w.store, SandboxOf(w))
  }

  /** A rollback that meets its id in memory under another sandbox: a second registration's record. */
  ghost predicate StrayRollback(w: World, e: Event) {
    && e.Rollback? && Enabled(w, e)
    && var o := w.owners[e.rid];
       && o.id in w.store.records && w.store.records[o.id] in w.owners
       && w.owners[w.store.records[o.id]].row.sandboxID != o.row.sandboxID
  }

  lemma {:induction false} IndexSame(w: World, t: World)
    requires IndexExact(w) && t.store == w.store && t.owners.Keys == w.owners.Keys
    requires forall r | r in w.owners :: t.owners[r].id == w.owners[r].id && t.owners[r].row == w.owners[r].row
    ensures IndexExact(t)
  {
    hide ExactIndex;
    assert SandboxOf(t) == SandboxOf(w);
  }

  /** What a successful insertion does to the parts that matter here. */
  lemma {:induction false} InsertedParts(w: World, rid: Rid, id: string, row: Row)
    requires Enabled(w, InsertMemory(rid, id, row)) && id !in w.store.records
    ensures var t := Next(w, InsertMemory(rid, id, row));
            && t.store == InsertRecord(w.store, row.sandboxID, id, rid) && t.mode == w.mode
            && t.store.records == w.store.records[id := rid]
            && t.owners == w.owners[rid := Owner(id, row, Inserting, FreshLog(row.maxOutputBytes), false)]
  {
  }

  lemma {:induction false} InsertedSandboxes(w: World, rid: Rid, id: string, row: Row)
    requires Owned(w) && Enabled(w, InsertMemory(rid, id, row)) && id !in w.store.records
    ensures var t := Next(w, InsertMemory(rid, id, row));
            Owned(t) && SandboxOf(t) == SandboxOf(w)[id := row.sandboxID]
  {
    hide Next;
    hide InsertRecord;
    InsertedParts(w, rid, id, row);
  }

  lemma {:induction false} InsertMemoryKeepsIndex(w: World, rid: Rid, id: string, row: Row)
    requires IndexExact(w) && Enabled(w, InsertMemory(rid, id, row))
    ensures IndexExact(Next(w, InsertMemory(rid, id, row)))
  {
    hide ExactIndex;
    if id !in w.store.records {
      InsertedParts(w, rid, id, row);
      InsertedSandboxes(w, rid, id, row);
      hide Next;
      hide Owned;
      hide SandboxOf;
      hide InsertRecord;
      InsertKeepsIndex(w.store, SandboxOf(w), row.sandboxID, id, rid);
    }
  }

  /** A rollback keeps the index exact unless it is a stray one. */
  lemma {:induction false} RollbackIndexIff(w: World, rid: Rid)
    requires IndexExact(w) && Enabled(w, Rollback(rid))
    ensures IndexExact(Next(w, Rollback(rid))) <==> !StrayRollback(w, Rollback(rid))
  {
    hide ExactIndex;
    var o, t := w.owners[rid], Next(w, Rollback(rid));
    assert Owned(t);
    assert SandboxOf(t) == SandboxOf(w) - {o.id};
    RemoveKeepsIndexIff(w.store, SandboxOf(w), o.row.sandboxID, o.id);
  }

  lemma {:induction false} DeleteKeepsIndex(w: World, sandbox: string)
    requires IndexExact(w) && Enabled(w, DeleteBySandbox(sandbox))
    ensures IndexExact(Next(w, DeleteBySandbox(sandbox)))
  {
    hide ExactIndex;
    var t := Next(w, DeleteBySandbox(sandbox));
    assert Owned(t);
    assert SandboxOf(t) == SandboxOf(w) - IdsOf(w.store, sandbox);
    DropKeepsIndex(w.store, SandboxOf(w), sandbox);
  }

  /** The other steps leave both maps alone, and put no call in flight. */
  lemma {:induction false} QuietStep(w: World, e: Event)
    requires Enabled(w, e)
    requires e.NewSandbox? || e.InsertTable? || e.Work? || e.StoreFinal? || e.EndDrain?
    ensures var t := Next(w, e);
            && t.store == w.store && t.owners.Keys == w.owners.Keys && t.mode == w.mode
            && forall r | r in w.owners ::
                 && t.owners[r].id == w.owners[r].id && t.owners[r].row == w.owners[r].row
                 && (InFlight(t.owners[r]) ==> InFlight(w.owners[r]))
  {
    hide Step;
    hide FinalRow;
    hide Accepted;
  }

  lemma {:induction false} EmptyIndex(w: World)
    requires w.owners == map[] && w.store == EmptyStore()
    ensures IndexExact(w) && FlightOk(w)
  {
  }

  /** From an exact index every step leads to an exact one, but for a stray rollback, which never does. */
  lemma {:induction false} NextIndexIff(w: World, e: Event)
    requires IndexExact(w) && FreshOwners(w) && Enabled(w, e)
    ensures IndexExact(Next(w, e)) <==> !StrayRollback(w, e)
  {
    hide IndexExact;
    hide Step;
    hide InsertRecord;
    hide RemoveRecord;
    hide DropSandbox;
    match e
    case InsertMemory(rid, id, row) => InsertMemoryKeepsIndex(w, rid, id, row);
    case Rollback(rid) => RollbackIndexIff(w, rid);
    case DeleteBySandbox(sandbox) => DeleteKeepsIndex(w, sandbox);
    case Crash => EmptyIndex(Next(w, e));
    case Restart => EmptyIndex(Next(w, e));
    case Reconcile(_, _) => EmptyIndex(Next(w, e));
    case _ =>
      QuietStep(w, e);
      hide Next;
      IndexSame(w, Next(w, e));
  }

  ghost predicate NoStray(events: seq<Event>) {
    forall i :: 0 <= i < |events| ==> !StrayRollback(Play(Init(), events[..i]), events[i])
  }

  ghost predicate AlwaysExact(events: seq<Event>) {
    forall n :: 0 <= n <= |events| ==> IndexExact(Play(Init(), events[..n]))
  }

  lemma {:induction false} FrontOfRun(events: seq<Event>)
    requires events != []
    ensures var front := events[..|events| - 1];
            && (NoStray(events) <==> NoStray(front) && !StrayRollback(Play(Init(), front), events[|front|]))
            && (AlwaysExact(events) <==> AlwaysExact(front) && IndexExact(Play(Init(), events)))
  {
    hide StrayRollback;
    hide IndexExact;
    hide Play;
    var front := events[..|events| - 1];
    assert events[..|events|] == events;
    assert forall i :: 0 <= i <= |front| ==> front[..i] == events[..i];
    assert forall i :: 0 <= i < |front| ==> front[i] == events[i];
    if NoStray(events) {
      assert !StrayRollback(Play(Init(), events[..|front|]), events[|front|]);
      forall i | 0 <= i < |front| ensures !StrayRollback(Play(Init(), front[..i]), front[i]) {
        assert !StrayRollback(Play(Init(), events[..i]), events[i]);
      }
    }
    if AlwaysExact(events) {
      assert IndexExact(Play(Init(), events[..|events|]));
      forall n | 0 <= n <= |front| ensures IndexExact(Play(Init(), front[..n])) {
        assert IndexExact(Play(Init(), events[..n]));
      }
    }
  }

  /**
   Exactly when the index is the inverse of the record map, with no empty sets, all through a run, over any
   interleaving of insertions, INSERT outcomes, rollbacks, deletions and crashes: when no rollback meets its
   id in memory under another sandbox.
   */
  lemma {:induction false} IndexExactIff(events: seq<Event>)
    ensures AlwaysExact(events) <==> NoStray(events)
    decreases |events|
  {
    hide IndexExact;
    hide Next;
    hide Enabled;
    hide Inv;
    if events == [] {
      EmptyIndex(Init());
    } else {
      var front, e := events[..|events| - 1], events[|events| - 1];
      IndexExactIff(front);
      FrontOfRun(events);
      var before := Play(Init(), front);
      if AlwaysExact(front) {
        assert front[..|front|] == front;
        assert IndexExact(before);
        assert FreshOwners(before) by { InitInv(); PlayKeepsInv(Init(), front); InvFresh(before); }
        if Enabled(before, e) {
          NextIndexIff(before, e);
        } else {
          assert !StrayRollback(before, e);
        }
      }
    }
  }

  lemma {:induction false} InvFresh(w: World)
    requires Inv(w)
    ensures FreshOwners(w)
  {
    hide FreshOwners;
  }

  ghost predicate AllDistinct(events: seq<Event>) {
    forall i :: 0 <= i < |events| ==> DistinctInFlight(Play(Init(), events[..i]), events[i])
  }

  lemma {:induction false} NextKeepsFlight(w: World, e: Event)
    requires FlightOk(w) && FreshOwners(w) && Enabled(w, e) && DistinctInFlight(w, e)
    ensures FlightOk(Next(w, e))
  {
    hide FlightOk;
    hide FreshOwners;
    match e
    case InsertMemory(rid, id, row) =>
      if id !in w.store.records {
        InsertMemoryKeepsFlight(w, rid, id, row);
      }
    case Rollback(rid) => RollbackKeepsFlight(w, rid);
    case DeleteBySandbox(sandbox) => DeleteKeepsFlight(w, sandbox);
    case Crash => EmptyIndex(Next(w, e));
    case Restart => EmptyIndex(Next(w, e)) by { StillEmpty(w); }
    case Reconcile(_, _) => EmptyIndex(Next(w, e)) by { StillEmpty(w); }
    case _ =>
      QuietStep(w, e);
      hide Next;
      FlightSame(w, Next(w, e));
  }

  lemma {:induction false} StillEmpty(w: World)
    requires FreshOwners(w) && w.mode != Serving
    ensures w.owners == map[] && w.store == EmptyStore()
  {
  }

  lemma {:induction false} FlightSame(w: World, t: World)
    requires FlightOk(w) && t.store == w.store && t.owners.Keys == w.owners.Keys
    requires forall r | r in w.owners ::
               t.owners[r].id == w.owners[r].id && (InFlight(t.owners[r]) ==> InFlight(w.owners[r]))
    ensures FlightOk(t)
  {
  }

  lemma {:induction false} InsertMemoryKeepsFlight(w: World, rid: Rid, id: string, row: Row)
    requires FlightOk(w) && Enabled(w, InsertMemory(rid, id, row)) && DistinctInFlight(w, InsertMemory(rid, id, row))
    requires id !in w.store.records
    ensures FlightOk(Next(w, InsertMemory(rid, id, row)))
  {
    hide Next;
    InsertedParts(w, rid, id, row);
  }

  lemma {:induction false} RollbackKeepsFlight(w: World, rid: Rid)
    requires FlightOk(w) && Enabled(w, Rollback(rid))
    ensures FlightOk(Next(w, Rollback(rid)))
  {
  }

  lemma {:induction false} DeleteKeepsFlight(w: World, sandbox: string)
    requires FlightOk(w) && Enabled(w, DeleteBySandbox(sandbox))
    ensures FlightOk(Next(w, DeleteBySandbox(sandbox)))
  {
  }

  lemma {:induction false} DistinctRunHasNoStray(events: seq<Event>)
    requires AllDistinct(events)
    ensures NoStray(events) && FlightOk(Play(Init(), events))
    decreases |events|
  {
    hide FlightOk;
    hide Next;
    hide Enabled;
    hide DistinctInFlight;
    hide Inv;
    if events == [] {
      EmptyIndex(Init());
    } else {
      var front, e := events[..|events| - 1], events[|events| - 1];
      forall i | 0 <= i < |front| ensures DistinctInFlight(Play(Init(), front[..i]), front[i]) {
        assert front[..i] == events[..i] && front[i] == events[i];
      }
      DistinctRunHasNoStray(front);
      FrontOfRun(events);
      var before := Play(Init(), front);
      assert DistinctInFlight(Play(Init(), events[..|front|]), events[|front|]);
      FlightHasNoStray(before, e);
      assert FreshOwners(before) by { InitInv(); PlayKeepsInv(Init(), front); InvFresh(before); }
      if Enabled(before, e) {
        NextKeepsFlight(before, e);
      }
    }
  }

  lemma {:induction false} FlightHasNoStray(w: World, e: Event)
    requires FlightOk(w)
    ensures !StrayRollback(w, e)
  {
  }

  /** So the index stays exact in every run whose ids in flight are distinct, as random ids are. */
  lemma {:induction false} IndexStaysExact(events: seq<Event>)
    requires AllDistinct(events)
    ensures AlwaysExact(events)
  {
    hide AlwaysExact;
    hide NoStray;
    DistinctRunHasNoStray(events);
    IndexExactIff(events);
  }

  lemma {:induction false} PlaySnoc(events: seq<Event>, e: Event)
    ensures Play(Init(), events + [e]) ==
            if Enabled(Play(Init(), events), e) then Next(Play(Init(), events), e) else Play(Init(), events)
  {
    assert (events + [e])[..|events|] == events;
  }

  lemma {:induction false} TwoInFlight(row: Row, row': Row) returns (events: seq<Event>)
    requires FreshRow(row) && FreshRow(row') && row.sandboxID == "a" && row'.sandboxID == "b"
    ensures var w := Play(Init(), events);
            && w.mode == Serving && InPhase(w, 0, Inserting) && InPhase(w, 1, Inserting)
            && w.owners[0].id == "x" && w.owners[0].row == row
            && w.store == Store(map["x" := 1], map["b" := {"x"}])
  {
    var e2 := [] + [Restart] + [Reconcile(0, false)];
    PlaySnoc([], Restart);
    PlaySnoc([] + [Restart], Reconcile(0, false));
    var w2 := Play(Init(), e2);
    assert w2.mode == Serving && w2.owners == map[] && w2.store == EmptyStore();
    PlaySnoc(e2, InsertMemory(0, "x", row));
    var e3 := e2 + [InsertMemory(0, "x", row)];
    var w3 := Play(Init(), e3);
    assert w3.store == InsertRecord(EmptyStore(), "a", "x", 0);
    assert w3.store.bySession["a"] == {"x"} && w3.store.records == map["x" := 0];
    PlaySnoc(e3, DeleteBySandbox("a"));
    var e4 := e3 + [DeleteBySandbox("a")];
    var w4 := Play(Init(), e4);
    assert w4.store.records == map[] && w4.store.bySession == map[] && w4.owners == w3.owners;
    PlaySnoc(e4, InsertMemory(1, "x", row'));
    events := e4 + [InsertMemory(1, "x", row')];
    assert Play(Init(), events).store.bySession["b"] == {"x"};
  }

  /**
   Without distinct ids in flight the index can go wrong: a rollback, by id, removes the record of a second
   registration of the same id that came in after a deletion, but leaves that record's id in its sandbox's set.
   */
  lemma {:induction false} SameIdInFlightBreaksIndex(row: Row, row': Row)
    requires FreshRow(row) && FreshRow(row') && row.sandboxID == "a" && row'.sandboxID == "b"
    ensures exists events: seq<Event> :: var w := Play(Init(), events);
              w.mode == Serving && "x" !in w.store.records && "b" in w.store.bySession && "x" in w.store.bySession["b"]
  {
    var e5 := TwoInFlight(row, row');
    PlaySnoc(e5, InsertTable(0, true));
    var e6 := e5 + [InsertTable(0, true)];
    var w6 := Play(Init(), e6);
    assert InPhase(w6, 0, RollingBack);
    PlaySnoc(e6, Rollback(0));
    var w7 := Play(Init(), e6 + [Rollback(0)]);
    assert "x" in w7.store.bySession["b"];
  }
}
