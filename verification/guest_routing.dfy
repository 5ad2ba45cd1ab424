/** The agent's table of running execs, which routes stdin and signals by exec id. */
module GuestRouting {
  import opened ExecTypes

  /** Identifies one call of `Exec`, with its process, stdin and cancel function. */
  type CallId = nat

  // ---------------------------------------------------------------- all interleavings of Exec calls

  /** A call has started its child, is registered, was rejected as a duplicate, or has returned. */
  datatype Phase = Started | Registered | Rejected | Returned

  datatype Call = Call(execID: string, phase: Phase)

  datatype State = State(calls: map<CallId, Call>, execs: map<string, CallId>)

  datatype Event =
    | Begin(call: CallId, execID: string)
    | Register(call: CallId)
    | Finish(call: CallId)

  predicate Enabled(s: State, e: Event) {
    match e
    case Begin(call, _) => call !in s.calls
    case Register(call) => call in s.calls && s.calls[call].phase == Started
    case Finish(call) => call in s.calls && s.calls[call].phase == Registered
  }

  /** Only a call that registered defers its unregistration. */
  function Next(s: State, e: Event): State
    requires Enabled(s, e)
  {
    match e
    case Begin(call, execID) => s.(calls := s.calls[call := Call(execID, Started)])
    case Register(call) =>
      var id := s.calls[call].execID;
      if id in s.execs then s.(calls := s.calls[call := Call(id, Rejected)])
      else State(s.calls[call := Call(id, Registered)], s.execs[id := call])
    case Finish(call) =>
      var id := s.calls[call].execID;
      State(s.calls[call := Call(id, Returned)], s.execs - {id})
  }

  function Play(s: State, events: seq<Event>): State {
    if events == [] then s
    else
      var before := Play(s, events[..|events| - 1]);
      var e := events[|events| - 1];
      if Enabled(before, e) then Next(before, e) else before
  }

  /** The table holds the registered calls, each under its own id, and nothing else. */
  ghost predicate Routed(s: State) {
    && (forall id | id in s.execs :: s.execs[id] in s.calls && s.calls[s.execs[id]] == Call(id, Registered))
    && (forall c | c in s.calls && s.calls[c].phase == Registered ::
          s.calls[c].execID in s.execs && s.execs[s.calls[c].execID] == c)
  }

  lemma {:induction false} NextKeepsRouted(s: State, e: Event)
    requires Routed(s) && Enabled(s, e)
    ensures Routed(Next(s, e))
  {
  }

  /** Over every interleaving an id leads to the one call between its registration and its return. */
  lemma {:induction false} AlwaysRouted(events: seq<Event>)
    ensures Routed(Play(State(map[], map[]), events))
    decreases |events|
  {
    hide Routed;
    if events != [] {
      AlwaysRouted(events[..|events| - 1]);
      var before := Play(State(map[], map[]), events[..|events| - 1]);
      if Enabled(before, events[|events| - 1]) {
        NextKeepsRouted(before, events[|events| - 1]);
      }
    } else {
      assert Routed(State(map[], map[])) by { EmptyIsRouted(); }
    }
  }

  lemma {:induction false} EmptyIsRouted()
    ensures Routed(State(map[], map[]))
  {
  }

  /** Until a registered call finishes, nothing another call does, a rejected duplicate included, moves its route. */
  lemma {:induction false} RouteIsStable(s: State, call: CallId, later: seq<Event>)
    requires Routed(s) && call in s.calls && s.calls[call].phase == Registered
    requires Finish(call) !in later
    ensures var t := Play(s, later);
            && Routed(t) && call in t.calls && t.calls[call] == s.calls[call]
            && s.calls[call].execID in t.execs && t.execs[s.calls[call].execID] == call
    decreases |later|
  {
    if later != [] {
      var front, e := later[..|later| - 1], later[|later| - 1];
      RouteIsStable(s, call, front);
      var before := Play(s, front);
      if Enabled(before, e) {
        NextKeepsRouted(before, e);
        assert e != Finish(call);
        assert Next(before, e).calls[call] == before.calls[call];
      }
    }
  }

  /** An id is free again once its call has returned: the next call that asks for it gets it. */
  lemma {:induction false} ReturnedIdIsFree(s: State, call: CallId, next: CallId)
    requires Routed(s) && Enabled(s, Finish(call)) && Enabled(s, Register(next))
    requires s.calls[next].execID == s.calls[call].execID
    ensures Next(s, Register(next)).calls[next].phase == Rejected
    ensures var t := Next(s, Finish(call));
            && Enabled(t, Register(next)) && Next(t, Register(next)).calls[next].phase == Registered
            && Next(t, Register(next)).execs == s.execs[s.calls[call].execID := next]
  {
    var id := s.calls[call].execID;
    assert (s.execs - {id})[id := next] == s.execs[id := next];
  }

  // ---------------------------------------------------------------- the server's table

  /** The table is updated in place; the calls are history, so that its steps can be compared with `Next`. */
  class AgentServer {
    var execs: map<string, CallId>
    ghost var calls: map<CallId, Call>

    ghost function View(): State
      reads this
    {
      State(calls, execs)
    }

    ghost predicate Valid()
      reads this
    {
      Routed(View())
    }

    constructor ()
      ensures Valid() && View() == State(map[], map[])
    {
      execs, calls := map[], map[];
    }

    /** A call starts its child before it asks for its place in the table. */
    ghost method Start(execID: string, call: CallId)
      requires Valid() && Enabled(View(), Begin(call, execID))
      modifies this`calls
      ensures Valid() && View() == Next(old(View()), Begin(call, execID))
    {
      calls := calls[call := Call(execID, Started)];
    }

    /** `false` is AlreadyExists: some other call is registered under the id. */
    method RegisterExec(execID: string, call: CallId) returns (ok: bool)
      requires Valid() && Enabled(View(), Register(call)) && calls[call].execID == execID
      modifies this
      ensures Valid() && View() == Next(old(View()), Register(call))
      ensures ok <==> calls[call].phase == Registered
      ensures !ok <==> exists c :: c in old(calls) && old(calls)[c] == Call(execID, Registered)
    {
      NextKeepsRouted(View(), Register(call));
      ok := execID !in execs;
      if ok {
        execs, calls := execs[execID := call], calls[call := Call(execID, Registered)];
      } else {
        assert calls[execs[execID]] == Call(execID, Registered);
        calls := calls[call := Call(execID, Rejected)];
      }
    }

    method UnregisterExec(execID: string, ghost call: CallId)
      requires Valid() && Enabled(View(), Finish(call)) && calls[call].execID == execID
      modifies this
      ensures Valid() && View() == Next(old(View()), Finish(call))
      ensures execs == old(execs) - {execID} && execID in old(execs) && calls[call].phase == Returned
    {
      NextKeepsRouted(View(), Finish(call));
      execs, calls := execs - {execID}, calls[call := Call(execID, Returned)];
    }

    /** Where stdin and signals go: to the one registered call of this id, and `None`, NotFound, when there is none. */
    method GetExec(execID: string) returns (call: Option<CallId>)
      requires Valid()
      ensures forall c :: call == Some(c) <==> c in calls && calls[c] == Call(execID, Registered)
    {
      if execID in execs {
        call := Some(execs[execID]);
      } else {
        call := None;
      }
    }
  }
}
