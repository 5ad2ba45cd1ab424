/** All runs of the sandbox manager, with faults, pods lost by the cluster, crashes and restarts. */
module SandboxRuns {
  import opened ExecTypes
  import opened SandboxManager

  /** `leaked` is history: pods whose deletion failed, or whose Create or Delete a crash cut short. */
  datatype World = World(fleet: Fleet, leaked: set<string>, serving: bool)

  datatype Event =
    | CreateSucceeds(id: string, c: Conn)
    | CreateFails(id: string, podLeft: bool)
    | DeleteRuns(id: string, podLeft: bool)
    | PodLost(id: string)
    | Crash
    | CrashInCreate(id: string)
    | CrashInDelete(id: string)
    | RestartFails
    | RestartSucceeds

  function Init(): World {
    World(Fleet({}, map[], map[], {}), {}, false)
  }

  /** A crash closes every connection. */
  function Crashed(s: Fleet): Fleet {
    s.(agents := map[], open := {})
  }

  ghost predicate Step(w: World, e: Event, t: World) {
    match e
    case CreateSucceeds(id, c) =>
      w.serving && Created(w.fleet, t.fleet, id, c) && t.leaked == w.leaked && t.serving
    case CreateFails(id, podLeft) =>
      && w.serving && NotCreated(w.fleet, t.fleet, id, podLeft) && t.serving
      && t.leaked == if podLeft then w.leaked + {id} else w.leaked
    case DeleteRuns(id, podLeft) =>
      && w.serving && Deleted(w.fleet, t.fleet, id, podLeft) && t.serving
      && t.leaked == if podLeft then w.leaked + {id} else w.leaked
    case PodLost(id) =>
      t == w.(fleet := w.fleet.(pods := w.fleet.pods - {id}))
    case Crash =>
      w.serving && t == World(Crashed(w.fleet), w.leaked, false)
    case CrashInCreate(id) =>
      && w.serving && id !in w.fleet.pods
      && t == World(Crashed(w.fleet.(pods := w.fleet.pods + {id})), w.leaked + {id}, false)
    case CrashInDelete(id) =>
      && w.serving && IsUp(w.fleet.rows, id)
      && t == World(Crashed(w.fleet.(rows := w.fleet.rows[id := EndedRow("user_kill")])), w.leaked + {id}, false)
    case RestartFails => !w.serving && t == w
    case RestartSucceeds =>
      !w.serving && Reattached(w.fleet, t.fleet) && t.leaked == w.leaked && t.serving
  }

  ghost predicate Steps(w: World, t: World) {
    exists e :: Step(w, e, t)
  }

  /** A run as the sequence of its states. */
  ghost predicate IsRun(ws: seq<World>) {
    && ws != [] && ws[0] == Init()
    && forall i :: 0 <= i < |ws| - 1 ==> Steps(ws[i], ws[i + 1])
  }

  ghost predicate RowsOk(rows: map<string, SandboxRow>) {
    forall id | id in rows :: rows[id] == RUNNING_ROW || (rows[id].status == "ended" && rows[id].endCause.Some?)
  }

  /** Cached agents are those of running rows, each with its own connection, and no other connection is open. */
  ghost predicate AgentsOk(s: Fleet) {
    && (forall id | id in s.agents :: IsUp(s.rows, id))
    && (forall a, b | a in s.agents && b in s.agents && s.agents[a] == s.agents[b] :: a == b)
    && (forall c :: c in s.open <==> exists id :: id in s.agents && s.agents[id] == c)
  }

  /** Every pod belongs to a running row, or its removal failed or was cut short. */
  ghost predicate PodsOk(w: World) {
    forall id | id in w.fleet.pods :: IsUp(w.fleet.rows, id) || id in w.leaked
  }

  ghost predicate Inv(w: World) {
    RowsOk(w.fleet.rows) && AgentsOk(w.fleet) && PodsOk(w)
  }

  /** A row only goes from running to ended, its cause set once, and never disappears. */
  ghost predicate RowsAdvance(before: map<string, SandboxRow>, after: map<string, SandboxRow>) {
    forall id | id in before :: id in after && (before[id].status == "ended" ==> after[id] == before[id])
  }

  lemma {:induction false} CreateKeepsAgents(s: Fleet, t: Fleet, id: string, c: Conn)
    requires AgentsOk(s) && Created(s, t, id, c)
    ensures AgentsOk(t)
  {
    assert id !in s.agents;
    forall d ensures d in t.open <==> exists k :: k in t.agents && t.agents[k] == d {
      if d == c {
        assert t.agents[id] == d;
      } else if d in s.open {
        var k :| k in s.agents && s.agents[k] == d;
        assert t.agents[k] == d;
      }
    }
  }

  lemma {:induction false} DeleteKeepsAgents(s: Fleet, t: Fleet, id: string, podLeft: bool)
    requires AgentsOk(s) && Deleted(s, t, id, podLeft)
    ensures AgentsOk(t)
  {
    forall d ensures d in t.open <==> exists k :: k in t.agents && t.agents[k] == d {
      if d in t.open {
        var k :| k in s.agents && s.agents[k] == d;
        assert k in t.agents && t.agents[k] == d;
      }
    }
  }

  lemma {:induction false} RestartKeepsAgents(s: Fleet, t: Fleet)
    requires Reattached(s, t)
    ensures AgentsOk(t)
  {
  }

  lemma {:induction false} StepKeepsInv(w: World, e: Event, t: World)
    requires Inv(w) && Step(w, e, t)
    ensures Inv(t)
  {
    hide AgentsOk;
    match e
    case CreateSucceeds(id, c) => CreateKeepsAgents(w.fleet, t.fleet, id, c);
    case CreateFails(id, podLeft) => SameAgents(w.fleet, t.fleet);
    case DeleteRuns(id, podLeft) => DeleteKeepsAgents(w.fleet, t.fleet, id, podLeft);
    case PodLost(id) => SameAgents(w.fleet, t.fleet);
    case RestartSucceeds => RestartKeepsAgents(w.fleet, t.fleet);
    case RestartFails =>
    case _ => NoAgents(t.fleet);
  }

  lemma {:induction false} SameAgents(s: Fleet, t: Fleet)
    requires AgentsOk(s) && t.rows == s.rows && t.agents == s.agents && t.open == s.open
    ensures AgentsOk(t)
  {
  }

  lemma {:induction false} NoAgents(s: Fleet)
    requires s.agents == map[] && s.open == {}
    ensures AgentsOk(s)
  {
  }

  lemma {:induction false} StepAdvancesRows(w: World, e: Event, t: World)
    requires Step(w, e, t) && RowsOk(w.fleet.rows)
    ensures RowsAdvance(w.fleet.rows, t.fleet.rows)
  {
  }

  lemma {:induction false} RunKeepsInv(ws: seq<World>, i: nat)
    requires IsRun(ws) && i < |ws|
    ensures Inv(ws[i])
  {
    if i > 0 {
      RunKeepsInv(ws, i - 1);
      assert Steps(ws[i - 1], ws[i - 1 + 1]);
      var e :| Step(ws[i - 1], e, ws[i]);
      StepKeepsInv(ws[i - 1], e, ws[i]);
    }
  }

  /** Over every run a row, once there, stays; it only goes from running to ended, with its cause set once. */
  lemma {:induction false} RowsOnlyEnd(ws: seq<World>, i: nat, j: nat)
    requires IsRun(ws) && i <= j < |ws|
    ensures RowsAdvance(ws[i].fleet.rows, ws[j].fleet.rows)
    ensures forall id | id in ws[j].fleet.rows ::
              ws[j].fleet.rows[id].status == "running" <==> ws[j].fleet.rows[id].endCause == None
    decreases j
  {
    RunKeepsInv(ws, j);
    if i < j {
      RowsOnlyEnd(ws, i, j - 1);
      RunKeepsInv(ws, j - 1);
      assert Steps(ws[j - 1], ws[j - 1 + 1]);
      var e :| Step(ws[j - 1], e, ws[j]);
      StepAdvancesRows(ws[j - 1], e, ws[j]);
    }
  }

  /** This step ends a sandbox that is up: its deletion, finished or cut short, or a restart that misses its pod. */
  ghost predicate Ends(w: World, e: Event, id: string) {
    && IsUp(w.fleet.rows, id)
    && match e
       case DeleteRuns(k, _) => k == id
       case CrashInDelete(k) => k == id
       case RestartSucceeds => id !in w.fleet.pods
       case _ => false
  }

  lemma {:induction false} StepEnds(w: World, e: Event, t: World, id: string)
    requires Step(w, e, t) && RowsOk(w.fleet.rows) && id in t.fleet.rows
    requires t.fleet.rows[id].status == "ended" && !(id in w.fleet.rows && w.fleet.rows[id].status == "ended")
    ensures Ends(w, e, id)
    ensures t.fleet.rows[id].endCause ==
            if e.RestartSucceeds? then Some("host_failed") else Some("user_kill")
  {
  }

  /** The step of a run that ended a sandbox, and the cause it stored. */
  ghost predicate EndedAt(ws: seq<World>, i: nat, e: Event, id: string, cause: Option<string>) {
    && i + 1 < |ws| && Step(ws[i], e, ws[i + 1]) && Ends(ws[i], e, id)
    && cause == (if e.RestartSucceeds? then Some("host_failed") else Some("user_kill"))
  }

  /**
   Over every run the cause of an ended sandbox tells how it ended: `user_kill` when a deletion ended it, and
   `host_failed` when a restart found its pod gone.
   */
  lemma {:induction false} EndCauseTells(ws: seq<World>, j: nat, id: string)
    requires IsRun(ws) && j < |ws| && id in ws[j].fleet.rows && ws[j].fleet.rows[id].status == "ended"
    ensures exists i: nat, e: Event :: i < j && EndedAt(ws, i, e, id, ws[j].fleet.rows[id].endCause)
    decreases j
  {
    hide Step;
    RunKeepsInv(ws, j);
    if j == 0 {
      assert false;
    } else {
      RunKeepsInv(ws, j - 1);
      var before, after := ws[j - 1], ws[j];
      assert Steps(ws[j - 1], ws[j - 1 + 1]);
      var e :| Step(before, e, after);
      StepAdvancesRows(before, e, after);
      if id in before.fleet.rows && before.fleet.rows[id].status == "ended" {
        EndCauseTells(ws, j - 1, id);
      } else {
        StepEnds(before, e, after, id);
        assert EndedAt(ws, j - 1, e, id, after.fleet.rows[id].endCause);
      }
    }
  }

  /** A pod counts as leaked only by a step that left it behind. */
  ghost predicate Leaks(e: Event, id: string) {
    e == CreateFails(id, true) || e == DeleteRuns(id, true) || e == CrashInCreate(id) || e == CrashInDelete(id)
  }

  ghost predicate LeakedAt(ws: seq<World>, i: nat, e: Event, id: string) {
    i + 1 < |ws| && Step(ws[i], e, ws[i + 1]) && Leaks(e, id)
  }

  lemma {:induction false} LeakedMeansLeftBehind(ws: seq<World>, j: nat, id: string)
    requires IsRun(ws) && j < |ws| && id in ws[j].leaked
    ensures exists i: nat, e: Event :: i < j && LeakedAt(ws, i, e, id)
    decreases j
  {
    if j > 0 {
      assert Steps(ws[j - 1], ws[j - 1 + 1]);
      var e :| Step(ws[j - 1], e, ws[j]);
      if id in ws[j - 1].leaked {
        LeakedMeansLeftBehind(ws, j - 1, id);
      } else {
        assert LeakedAt(ws, j - 1, e, id);
      }
    }
  }

  /** Over every run a cached agent belongs to a running row, and the open connections are exactly the cached ones. */
  lemma {:induction false} AgentsBelongToRunningRows(ws: seq<World>)
    requires IsRun(ws)
    ensures var s := ws[|ws| - 1].fleet;
            && (forall id | id in s.agents :: id in s.rows && s.rows[id].status == "running")
            && s.open == s.agents.Values
  {
    RunKeepsInv(ws, |ws| - 1);
    var s := ws[|ws| - 1].fleet;
    forall c ensures c in s.open <==> c in s.agents.Values {
      if c in s.open {
        var id :| id in s.agents && s.agents[id] == c;
      }
    }
  }

  /** A step that leaves a pod behind: its deletion fails, or a crash comes between. */
  ghost predicate Clean(w: World, t: World) {
    exists e :: Step(w, e, t) &&
      match e
      case CreateFails(_, podLeft) => !podLeft
      case DeleteRuns(_, podLeft) => !podLeft
      case CrashInCreate(_) => false
      case CrashInDelete(_) => false
      case _ => true
  }

  lemma {:induction false} CleanRunLeaksNothing(ws: seq<World>, i: nat)
    requires IsRun(ws) && i < |ws| && forall k :: 0 <= k < |ws| - 1 ==> Clean(ws[k], ws[k + 1])
    ensures ws[i].leaked == {}
  {
    if i > 0 {
      CleanRunLeaksNothing(ws, i - 1);
      assert Clean(ws[i - 1], ws[i - 1 + 1]);
    }
  }

  /**
   Over every run each pod belongs to a running row or is one whose deletion failed or was cut short by a
   crash; so when pod deletions work and crashes come only between operations, every pod has its running row.
   */
  lemma {:induction false} PodsBelongToRunningRows(ws: seq<World>, id: string)
    requires IsRun(ws) && id in ws[|ws| - 1].fleet.pods
    ensures IsUp(ws[|ws| - 1].fleet.rows, id) || id in ws[|ws| - 1].leaked
    ensures (forall k :: 0 <= k < |ws| - 1 ==> Clean(ws[k], ws[k + 1])) ==> IsUp(ws[|ws| - 1].fleet.rows, id)
  {
    RunKeepsInv(ws, |ws| - 1);
    if forall k :: 0 <= k < |ws| - 1 ==> Clean(ws[k], ws[k + 1]) {
      CleanRunLeaksNothing(ws, |ws| - 1);
    }
  }

  /** A pod that no running row stands behind. */
  ghost predicate Orphan(s: Fleet, id: string) {
    id in s.pods && id in s.rows && s.rows[id].status == "ended"
  }

  /** A step in which the cluster does not itself lose this pod. */
  ghost predicate KeepingPod(w: World, t: World, id: string) {
    exists e :: Step(w, e, t) && e != PodLost(id)
  }

  /** An orphaned pod goes only when the cluster loses it. */
  lemma {:induction false} StepKeepsOrphan(w: World, e: Event, t: World, id: string)
    requires Step(w, e, t) && Orphan(w.fleet, id)
    ensures Orphan(t.fleet, id) <==> e != PodLost(id)
  {
  }

  /**
   A pod whose deletion failed with its sandbox stays for good: whatever creations, deletions, crashes and
   restarts follow, failing or not, nothing the manager does removes it or brings its row back.
   */
  lemma {:induction false} LeakedPodStays(w: World, id: string, later: seq<World>, i: nat)
    requires i < |later| && Step(w, DeleteRuns(id, true), later[0])
    requires forall k :: 0 <= k < |later| - 1 ==> KeepingPod(later[k], later[k + 1], id)
    ensures Orphan(later[i].fleet, id)
  {
    if i > 0 {
      LeakedPodStays(w, id, later, i - 1);
      assert KeepingPod(later[i - 1], later[i - 1 + 1], id);
      var e :| Step(later[i - 1], e, later[i]) && e != PodLost(id);
      StepKeepsOrphan(later[i - 1], e, later[i], id);
    }
  }
}
