/** The sandbox manager over its three stores: pods in the cluster, rows in the table, cached agent connections. */
module SandboxManager {
  import opened ExecTypes

  type Conn = nat

  datatype SandboxRow = SandboxRow(status: string, endCause: Option<string>)

  const RUNNING_ROW: SandboxRow := SandboxRow("running", None)

  function EndedRow(cause: string): SandboxRow {
    SandboxRow("ended", Some(cause))
  }

  /** Pods, rows, cached agents by sandbox id, and the agent connections that are open. */
  datatype Fleet = Fleet(pods: set<string>, rows: map<string, SandboxRow>, agents: map<string, Conn>, open: set<Conn>)

  predicate IsUp(rows: map<string, SandboxRow>, id: string) {
    id in rows && rows[id].status != "ended"
  }

  // ---------------------------------------------------------------- what each operation amounts to

  /** Pod, row and cached agent appear together. */
  ghost predicate Created(s: Fleet, t: Fleet, id: string, c: Conn) {
    && id !in s.pods && id !in s.rows && c !in s.open
    && t == Fleet(s.pods + {id}, s.rows[id := RUNNING_ROW], s.agents[id := c], s.open + {c})
  }

  /** No row, no cached agent, no open connection; the pod stays only if it was created and its deletion failed. */
  ghost predicate NotCreated(s: Fleet, t: Fleet, id: string, podLeft: bool) {
    (podLeft ==> id !in s.pods) && t == s.(pods := if podLeft then s.pods + {id} else s.pods)
  }

  /** The row ends, the agent is dropped and closed; the pod stays only if its deletion failed. */
  ghost predicate Deleted(s: Fleet, t: Fleet, id: string, podLeft: bool) {
    && IsUp(s.rows, id) && (podLeft ==> id in s.pods)
    && t == Fleet(
              if podLeft then s.pods else s.pods - {id},
              s.rows[id := EndedRow("user_kill")],
              s.agents - {id},
              if id in s.agents then s.open - {s.agents[id]} else s.open)
  }

  /** Rows whose pod is gone may end; sandboxes that are up may get a fresh connection; nothing else changes. */
  ghost predicate Reattached(s: Fleet, t: Fleet) {
    && t.pods == s.pods && t.rows.Keys == s.rows.Keys
    && (forall id | id in s.rows ::
          || t.rows[id] == s.rows[id]
          || (s.rows[id].status == "running" && id !in s.pods && t.rows[id] == EndedRow("host_failed")))
    && (forall id | id in t.agents ::
          id in s.rows && t.rows[id] == s.rows[id] && s.rows[id].status == "running" && id in s.pods)
    && (forall a, b | a in t.agents && b in t.agents && t.agents[a] == t.agents[b] :: a == b)
    && t.open == t.agents.Values
  }

  // ---------------------------------------------------------------- the manager

  /** Which external calls of a `Create` fail. */
  datatype CreateFaults = CreateFaults(createPod: bool, podReady: bool, dial: bool, ping: bool, insert: bool,
                                       deletePod: bool)

  predicate AnyFault(f: CreateFaults) {
    f.createPod || f.podReady || f.dial || f.ping || f.insert
  }

  datatype CreateError = CreatePod | PodNotReady | DialAgent | PingAgent | InsertRow

  datatype DeleteError = UpdateFailed | DeletePodFailed

  datatype GetError = SandboxNotFound | QueryFailed

  /** What reconciliation meets at a sandbox whose pod exists, and whether marking a missing one ended works. */
  datatype Probe = LookupFails | NotReady | DialFails | PingFails | Answers

  class Manager {
    var pods: set<string>
    var rows: map<string, SandboxRow>
    var agents: map<string, Conn>
    var open: set<Conn>
    var nextConn: Conn

    function State(): Fleet
      reads this
    {
      Fleet(pods, rows, agents, open)
    }

    /** Connections are numbered in the order they are dialed. */
    ghost predicate Valid()
      reads this
    {
      forall c | c in open :: c < nextConn
    }

    /** A manager starting over whatever pods and rows an earlier one left. */
    constructor (pods: set<string>, rows: map<string, SandboxRow>)
      ensures Valid() && State() == Fleet(pods, rows, map[], {})
    {
      this.pods, this.rows := pods, rows;
      agents, open, nextConn := map[], {}, 0;
    }

    method Dial() returns (c: Conn)
      requires Valid()
      modifies this`open, this`nextConn
      ensures Valid() && c !in old(open) && open == old(open) + {c}
    {
      c := nextConn;
      nextConn := nextConn + 1;
      open := open + {c};
    }

    method DeletePod(id: string, fault: bool)
      modifies this`pods
      ensures pods == if fault then old(pods) else old(pods) - {id}
    {
      if !fault {
        pods := pods - {id};
      }
    }

    /** Staged: whatever fails before the row is written is undone, the pod as far as its deletion works. */
    method Create(id: string, f: CreateFaults) returns (r: Result<Conn, CreateError>)
      requires Valid()
      modifies this
      ensures Valid()
      ensures r.Ok? <==> !AnyFault(f) && id !in old(pods) && id !in old(rows)
      ensures r.Ok? ==> Created(old(State()), State(), id, r.value)
      ensures r == Err(CreatePod) <==> f.createPod || id in old(pods)
      ensures r == Err(PodNotReady) <==> !f.createPod && id !in old(pods) && f.podReady
      ensures r == Err(DialAgent) <==> !f.createPod && id !in old(pods) && !f.podReady && f.dial
      ensures r == Err(PingAgent) <==> !f.createPod && id !in old(pods) && !f.podReady && !f.dial && f.ping
      ensures r.Err? ==> NotCreated(old(State()), State(), id, !f.createPod && id !in old(pods) && f.deletePod)
    {
      if f.createPod || id in pods {
        return Err(CreatePod);
      }
      pods := pods + {id};
      if f.podReady {
        DeletePod(id, f.deletePod);
        return Err(PodNotReady);
      }
      if f.dial {
        DeletePod(id, f.deletePod);
        return Err(DialAgent);
      }
      var c := Dial();
      if f.ping {
        open := open - {c};
        DeletePod(id, f.deletePod);
        return Err(PingAgent);
      }
      if f.insert || id in rows {
        open := open - {c};
        DeletePod(id, f.deletePod);
        return Err(InsertRow);
      }
      rows := rows[id := RUNNING_ROW];
      agents := agents[id := c];
      r := Ok(c);
    }

    /** Idempotent: a sandbox that is not up is left alone. */
    method Delete(id: string, updateFault: bool, podFault: bool) returns (r: Result<(), DeleteError>)
      requires Valid()
      modifies this
      ensures Valid()
      ensures updateFault ==> r == Err(UpdateFailed) && State() == old(State())
      ensures !updateFault && !IsUp(old(rows), id) ==> r == Ok(()) && State() == old(State())
      ensures !updateFault && IsUp(old(rows), id) ==>
                && Deleted(old(State()), State(), id, podFault && id in old(pods))
                && r == if podFault && id in old(pods) then Err(DeletePodFailed) else Ok(())
    {
      if updateFault {
        return Err(UpdateFailed);
      }
      if !(id in rows && rows[id].status != "ended") {
        return Ok(());
      }
      rows := rows[id := EndedRow("user_kill")];
      if id in agents {
        open := open - {agents[id]};
        agents := agents - {id};
      }
      if id in pods && podFault {
        return Err(DeletePodFailed);
      }
      pods := pods - {id};
      r := Ok(());
    }

    /** Ended sandboxes are not found. */
    method Get(id: string, fault: bool) returns (r: Result<Option<Conn>, GetError>)
      ensures fault ==> r == Err(QueryFailed)
      ensures !fault ==> (r.Ok? <==> IsUp(rows, id)) && (r.Err? ==> r == Err(SandboxNotFound))
      ensures r.Ok? ==> r.value == if id in agents then Some(agents[id]) else None
    {
      if fault {
        return Err(QueryFailed);
      }
      if id !in rows || rows[id].status == "ended" {
        return Err(SandboxNotFound);
      }
      r := Ok(if id in agents then Some(agents[id]) else None);
    }

    method MarkEnded(id: string, cause: string, fault: bool)
      modifies this`rows
      ensures rows == if fault || !IsUp(old(rows), id) then old(rows) else old(rows)[id := EndedRow(cause)]
    {
      if !fault && id in rows && rows[id].status != "ended" {
        rows := rows[id := EndedRow(cause)];
      }
    }

    /** One sandbox recorded as running. */
    method Recheck(id: string, probe: Probe, markFault: bool)
      requires Valid()
      modifies this
      ensures Valid() && pods == old(pods)
      ensures (id !in pods && probe != LookupFails && !markFault && IsUp(old(rows), id)) ==>
                rows == old(rows)[id := EndedRow("host_failed")]
      ensures !(id !in pods && probe != LookupFails && !markFault && IsUp(old(rows), id)) ==> rows == old(rows)
      ensures id in pods && probe == Answers ==>
                id in agents && agents == old(agents)[id := agents[id]] && agents[id] !in old(open)
                && open == old(open) + {agents[id]}
      ensures !(id in pods && probe == Answers) ==> agents == old(agents) && open == old(open)
    {
      if probe == LookupFails {
        return;
      }
      if id !in pods {
        MarkEnded(id, "host_failed", markFault);
        return;
      }
      if probe == NotReady || probe == DialFails {
        return;
      }
      var c := Dial();
      if probe == PingFails {
        open := open - {c};
        return;
      }
      agents := agents[id := c];
    }

    /**
     Startup: every sandbox recorded as running is rechecked, errors at one leaving the others be. A row
     ends exactly when its pod was looked up and found missing and the update worked; an agent is cached
     exactly for the rows whose pod answered.
     */
    method Reconcile(queryFault: bool, probes: map<string, Probe>, markFaults: set<string>) returns (ok: bool)
      requires Valid() && agents == map[] && open == {}
      requires probes.Keys >= rows.Keys
      modifies this
      ensures Valid() && (ok <==> !queryFault)
      ensures !ok ==> State() == old(State())
      ensures ok ==> Reattached(old(State()), State())
      ensures ok ==> forall id | id in old(rows) && old(rows)[id].status == "running" ::
                       && (rows[id] != old(rows)[id] <==>
                             id !in pods && probes[id] != LookupFails && id !in markFaults)
                       && (id in agents <==> id in pods && probes[id] == Answers)
    {
      if queryFault {
        return false;
      }
      ghost var s := State();
      var stubs := set id | id in rows && rows[id].status == "running";
      var todo := stubs;
      while todo != {}
        invariant Valid() && todo <= stubs
        invariant Reattached(s, State())
        invariant forall id | id in todo :: rows[id] == s.rows[id] && id !in agents
        invariant forall id | id in stubs - todo ::
                    && (rows[id] != s.rows[id] <==> id !in pods && probes[id] != LookupFails && id !in markFaults)
                    && (id in agents <==> id in pods && probes[id] == Answers)
        decreases todo
      {
        var id :| id in todo;
        ghost var before := State();
        Recheck(id, probes[id], id in markFaults);
        RecheckReattaches(s, before, State(), id);
        todo := todo - {id};
      }
      ok := true;
    }
  }

  lemma {:induction false} RecheckReattaches(s: Fleet, before: Fleet, after: Fleet, id: string)
    requires Reattached(s, before) && id in s.rows && s.rows[id].status == "running"
    requires before.rows[id] == s.rows[id] && id !in before.agents && after.pods == before.pods
    requires after.rows == before.rows || (id !in s.pods && after.rows == before.rows[id := EndedRow("host_failed")])
    requires || (after.agents == before.agents && after.open == before.open)
             || (after.rows == before.rows && id in s.pods && id in after.agents
                 && after.agents == before.agents[id := after.agents[id]]
                 && after.agents[id] !in before.open && after.open == before.open + {after.agents[id]})
    ensures Reattached(s, after)
  {
    if after.agents != before.agents {
      var c := after.agents[id];
      assert forall k :: k in before.agents ==> before.agents[k] in before.open;
      assert after.agents.Values == before.agents.Values + {c} by {
        forall v | v in before.agents.Values ensures v in after.agents.Values {
          var k :| k in before.agents && before.agents[k] == v;
          assert k in after.agents && after.agents[k] == v;
        }
        assert id in after.agents;
      }
    }
  }
}
