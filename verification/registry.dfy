/** The registry of exec records over the `execs` table, and the drain that feeds one record. */
module Registries {
  import opened ExecTypes
  import opened ExecLog
  import opened ExecRecords
  import opened ExecRows
  import opened RegistryStore
  import opened GuestPipeline

  /** The tables the registry touches. A statement that fails changes nothing. */
  class Database {
    var execs: map<string, Row>
    var sandboxes: set<string>

    constructor ()
      ensures execs == map[] && sandboxes == {}
    {
      execs, sandboxes := map[], {};
    }
  }

  datatype RegisterError = AlreadyRegistered | InsertFailed

  datatype LookupError = NotFound | QueryFailed

  function InsertedRow(rec: ExecRecord): Row {
    Row(rec.sandboxID, Join(rec.command), rec.cwd, rec.env, rec.background, rec.maxOutputBytes, "running", None,
        [], [], false, None, rec.startedAt, None)
  }

  /** `rec` is what a row reloads as. */
  ghost predicate LoadedFrom(rec: ExecRecord, id: string, row: Row)
    reads rec
  {
    && rec.id == id && rec.sandboxID == row.sandboxID && rec.startedAt == row.startedAt
    && rec.command == LoadedCommand(row) && rec.cwd == row.cwd && rec.env == row.environment
    && rec.background == row.background && rec.State() == LoadRow(row) && rec.subscribers == {}
  }

  /** `r` stands for the same exec as `rec` does, and is running with nothing captured. */
  ghost predicate Restored(r: ExecRecord, rec: ExecRecord)
    reads r, rec
  {
    && r.id == rec.id && r.sandboxID == rec.sandboxID && r.cwd == rec.cwd && r.env == rec.env
    && r.background == rec.background && r.maxOutputBytes == rec.maxOutputBytes && r.startedAt == rec.startedAt
    && (|rec.command| == 1 ==> r.command == rec.command)
    && r.status == Running && r.chunks == [] && r.nextSeq == 0 && r.outputBytes == 0 && !r.truncated
    && r.exitCode == 0 && r.completionErr == "" && r.completedAt == 0 && r.subscribers == {}
  }

  /** What is inserted for a new record is a fresh row, and reloads as that record. */
  lemma {:induction false} InsertedRowReloads(r: ExecRecord, rec: ExecRecord, maxBytes: int)
    requires rec.State() == FreshLog(maxBytes)
    ensures FreshRow(InsertedRow(rec))
    ensures LoadedFrom(r, rec.id, InsertedRow(rec)) ==> Restored(r, rec)
  {
    CommandSurvivesIff(rec.command);
    assert FreshLog(maxBytes).maxBytes == rec.maxOutputBytes;
  }

  method ScanRow(id: string, row: Row) returns (rec: ExecRecord)
    ensures fresh(rec) && LoadedFrom(rec, id, row)
  {
    rec := new ExecRecord.FromDB(id, row.sandboxID, row.command, row.cwd, row.environment, row.background,
                                 row.maxOutputBytes, ParseStatus(row.status), OrZero(row.exitCode), row.stdout,
                                 row.stderr, row.truncated, OrEmpty(row.completionErr), row.startedAt,
                                 OrZeroTime(row.completedAt));
  }

  ghost predicate DistinctIds(recs: seq<ExecRecord>) {
    forall i, j :: 0 <= i < j < |recs| ==> recs[i].id != recs[j].id
  }

  ghost predicate SortedByStart(recs: seq<ExecRecord>) {
    forall i, j :: 0 <= i < j < |recs| ==> recs[i].startedAt <= recs[j].startedAt
  }

  ghost predicate HasId(recs: seq<ExecRecord>, id: string) {
    exists i :: 0 <= i < |recs| && recs[i].id == id
  }

  lemma {:induction false} HasIdSnoc(recs: seq<ExecRecord>, rec: ExecRecord)
    ensures HasId(recs + [rec], rec.id)
    ensures forall id :: HasId(recs, id) ==> HasId(recs + [rec], id)
  {
    assert (recs + [rec])[|recs|] == rec;
    forall id | HasId(recs, id) ensures HasId(recs + [rec], id) {
      var i :| 0 <= i < |recs| && recs[i].id == id;
      assert (recs + [rec])[i].id == id;
    }
  }

  lemma {:induction false} HasIdSame(a: seq<ExecRecord>, b: seq<ExecRecord>, id: string)
    requires HasId(a, id) && forall r :: r in a ==> r in b
    ensures HasId(b, id)
  {
    var i :| 0 <= i < |a| && a[i].id == id;
    assert a[i] in b;
  }

  /** Moves element `i` down to its place among the sorted first `i`. */
  method SiftDown(a: array<ExecRecord>, i: nat)
    requires i < a.Length && DistinctIds(a[..]) && SortedByStart(a[..i])
    modifies a
    ensures DistinctIds(a[..]) && SortedByStart(a[..i + 1])
    ensures forall r :: r in a[..] <==> r in old(a[..])
  {
    hide DistinctIds;
    var j := i;
    while j > 0 && a[j - 1].startedAt > a[j].startedAt
      invariant 0 <= j <= i
      invariant DistinctIds(a[..])
      invariant forall r :: r in a[..] <==> r in old(a[..])
      invariant forall p, q :: 0 <= p < q <= i && q != j ==> a[p].startedAt <= a[q].startedAt
    {
      ghost var before := a[..];
      a[j - 1], a[j] := a[j], a[j - 1];
      SwapKeeps(before, a[..], j - 1, j);
      j := j - 1;
    }
  }

  /** In place, by start time; records with equal times come in no particular order. */
  method SortByStart(a: array<ExecRecord>)
    requires DistinctIds(a[..])
    modifies a
    ensures SortedByStart(a[..]) && DistinctIds(a[..])
    ensures forall r :: r in a[..] <==> r in old(a[..])
  {
    hide DistinctIds;
    for i := 0 to a.Length
      invariant DistinctIds(a[..]) && SortedByStart(a[..i])
      invariant forall r :: r in a[..] <==> r in old(a[..])
    {
      SiftDown(a, i);
    }
    assert a[..a.Length] == a[..];
  }

  lemma {:induction false} SwapKeeps(before: seq<ExecRecord>, after: seq<ExecRecord>, i: nat, j: nat)
    requires i < j < |before| && after == before[i := before[j]][j := before[i]]
    requires DistinctIds(before)
    ensures DistinctIds(after)
    ensures forall r :: r in after <==> r in before
  {
    forall r | r in before ensures r in after {
      var k :| 0 <= k < |before| && before[k] == r;
      assert after[if k == i then j else if k == j then i else k] == r;
    }
  }

  class Registry {
    const db: Database
    var records: map<string, ExecRecord>
    var bySession: map<string, set<string>>

    function Maps(): Store<ExecRecord>
      reads this
    {
      Store(records, bySession)
    }

    function SandboxOf(): map<string, string>
      reads this
    {
      map id | id in records :: records[id].sandboxID
    }

    /** Records are kept under their own id, and the index is exact. */
    ghost predicate Valid()
      reads this
    {
      && (forall id | id in records :: records[id].id == id)
      && ExactIndex(Maps(), SandboxOf())
    }

    constructor (db: Database)
      ensures Valid() && this.db == db && records == map[]
    {
      this.db := db;
      records, bySession := map[], map[];
    }

    method InsertInMemory(rec: ExecRecord)
      modifies this
      ensures Maps() == InsertRecord(old(Maps()), rec.sandboxID, rec.id, rec)
    {
      records := records[rec.id := rec];
      if rec.sandboxID !in bySession {
        bySession := bySession[rec.sandboxID := {}];
      }
      bySession := bySession[rec.sandboxID := bySession[rec.sandboxID] + {rec.id}];
    }

    method RemoveInMemory(rec: ExecRecord)
      modifies this
      ensures Maps() == RemoveRecord(old(Maps()), rec.sandboxID, rec.id)
    {
      records := records - {rec.id};
      if rec.sandboxID in bySession {
        var ids := bySession[rec.sandboxID] - {rec.id};
        if ids == {} {
          bySession := bySession - {rec.sandboxID};
        } else {
          bySession := bySession[rec.sandboxID := ids];
        }
      }
    }

    /**
     In memory first, then the INSERT, which the primary key, the foreign key or a fault may refuse; a
     refused registration leaves memory and table as if it never ran.
     */
    method Register(rec: ExecRecord, fault: bool) returns (r: Result<(), RegisterError>)
      requires Valid()
      modifies this, db`execs
      ensures Valid()
      ensures r.Err? ==> Maps() == old(Maps()) && db.execs == old(db.execs)
      ensures r == Err(AlreadyRegistered) <==> rec.id in old(records)
      ensures r == Err(InsertFailed) <==>
              rec.id !in old(records) &&
              (fault || rec.id in old(db.execs) || rec.sandboxID !in db.sandboxes)
      ensures r.Ok? ==>
                && Maps() == InsertRecord(old(Maps()), rec.sandboxID, rec.id, rec)
                && db.execs == old(db.execs)[rec.id := InsertedRow(rec)]
    {
      hide ExactIndex;
      if rec.id in records {
        return Err(AlreadyRegistered);
      }
      InsertKeepsIndex(Maps(), SandboxOf(), rec.sandboxID, rec.id, rec);
      RollbackRestores(Maps(), SandboxOf(), rec.sandboxID, rec.id, rec);
      InsertInMemory(rec);
      assert SandboxOf() == old(SandboxOf())[rec.id := rec.sandboxID];
      if fault || rec.id in db.execs || rec.sandboxID !in db.sandboxes {
        RemoveInMemory(rec);
        return Err(InsertFailed);
      }
      db.execs := db.execs[rec.id := InsertedRow(rec)];
      r := Ok(());
    }

    /** Best effort, by id only: a failing UPDATE, or one that matches no row, changes nothing. */
    method PersistFinal(rec: ExecRecord, fault: bool)
      modifies db`execs
      ensures db.execs == if fault || rec.id !in old(db.execs) then old(db.execs)
                          else old(db.execs)[rec.id := FinalRow(old(db.execs)[rec.id], rec.State())]
    {
      var stdout, stderr := rec.Output();
      if !fault && rec.id in db.execs {
        var row := db.execs[rec.id];
        db.execs := db.execs[rec.id := row.(status := StatusText(rec.status), exitCode := Some(rec.exitCode),
                                            stdout := stdout, stderr := stderr, truncated := rec.truncated,
                                            completionErr := NullIfEmpty(rec.completionErr),
                                            completedAt := Some(rec.completedAt))];
      }
    }

    /** `Complete` and `Errored`: the first one decides; each one stores what was decided. */
    method Finish(rec: ExecRecord, status: Status, exitCode: int32, reason: string, now: int, fault: bool)
      requires rec.Valid()
      modifies rec, rec.subscribers, db`execs
      ensures rec.Valid() && rec.subscribers == old(rec.subscribers)
      ensures rec.State() == FinishLog(old(rec.State()), status, exitCode, reason, now)
      ensures db.execs == if fault || rec.id !in old(db.execs) then old(db.execs)
                          else old(db.execs)[rec.id := FinalRow(old(db.execs)[rec.id], rec.State())]
    {
      rec.Finish(status, exitCode, reason, now);
      PersistFinal(rec, fault);
    }

    /** The in-memory record when there is one, else the row's. */
    method Get(id: string, fault: bool) returns (r: Result<ExecRecord, LookupError>)
      ensures id in records ==> r == Ok(records[id])
      ensures id !in records && fault ==> r == Err(QueryFailed)
      ensures id !in records && !fault && id !in db.execs ==> r == Err(NotFound)
      ensures id !in records && !fault && id in db.execs ==>
                r.Ok? && fresh(r.value) && LoadedFrom(r.value, id, db.execs[id])
    {
      if id in records {
        return Ok(records[id]);
      }
      if fault {
        return Err(QueryFailed);
      }
      if id !in db.execs {
        return Err(NotFound);
      }
      var rec := ScanRow(id, db.execs[id]);
      r := Ok(rec);
    }

    /** The ids a listing of a sandbox must show. */
    ghost function Expected(sandbox: string): set<string>
      reads this, db
    {
      IdsOf(Maps(), sandbox) + set id | id in db.execs && db.execs[id].sandboxID == sandbox
    }

    /** Shown from memory whenever memory has it for this sandbox, otherwise rebuilt from its row. */
    ghost predicate Shows(sandbox: string, rec: ExecRecord)
      reads this, db, rec
    {
      if rec.id in IdsOf(Maps(), sandbox) then rec.id in records && rec == records[rec.id]
      else rec.id in db.execs && db.execs[rec.id].sandboxID == sandbox && LoadedFrom(rec, rec.id, db.execs[rec.id])
    }

    method Remembered(sandbox: string) returns (out: seq<ExecRecord>)
      requires Valid()
      ensures DistinctIds(out)
      ensures forall i :: 0 <= i < |out| ==> out[i].id in IdsOf(Maps(), sandbox) && Shows(sandbox, out[i])
      ensures forall id | id in IdsOf(Maps(), sandbox) :: HasId(out, id)
    {
      hide HasId;
      out := [];
      var all := if sandbox in bySession then bySession[sandbox] else {};
      var todo := all;
      while todo != {}
        invariant todo <= all == IdsOf(Maps(), sandbox)
        invariant DistinctIds(out)
        invariant forall i :: 0 <= i < |out| ==> out[i].id in all - todo && Shows(sandbox, out[i])
        invariant forall id | id in all - todo :: HasId(out, id)
        decreases todo
      {
        var id :| id in todo;
        assert id in records;
        if id in records {
          HasIdSnoc(out, records[id]);
          out := out + [records[id]];
        }
        todo := todo - {id};
      }
    }

    /** Adds a rebuilt record for every row of the sandbox that memory did not show. */
    method WithRows(sandbox: string, remembered: seq<ExecRecord>) returns (out: seq<ExecRecord>)
      requires DistinctIds(remembered)
      requires forall i :: 0 <= i < |remembered| ==>
                 remembered[i].id in IdsOf(Maps(), sandbox) && Shows(sandbox, remembered[i])
      requires forall id | id in IdsOf(Maps(), sandbox) :: HasId(remembered, id)
      ensures DistinctIds(out)
      ensures forall i :: 0 <= i < |out| ==> Shows(sandbox, out[i])
      ensures forall id | id in Expected(sandbox) :: HasId(out, id)
    {
      hide HasId;
      out := remembered;
      var seen := if sandbox in bySession then bySession[sandbox] else {};
      var rows := set id | id in db.execs && db.execs[id].sandboxID == sandbox;
      var todo := rows;
      while todo != {}
        invariant todo <= rows
        invariant DistinctIds(out)
        invariant forall i :: 0 <= i < |out| ==> out[i].id in seen + (rows - todo) && Shows(sandbox, out[i])
        invariant forall id | id in seen + (rows - todo) :: HasId(out, id)
        decreases todo
      {
        var id :| id in todo;
        if id !in seen {
          var rec := ScanRow(id, db.execs[id]);
          HasIdSnoc(out, rec);
          out := out + [rec];
        }
        todo := todo - {id};
      }
    }

    /**
     Every exec of the sandbox known to memory or table, each once, memory winning, in order of start
     time; or an error when the query fails.
     */
    method List(sandbox: string, fault: bool) returns (r: Result<array<ExecRecord>, LookupError>)
      requires Valid()
      ensures r.Err? <==> fault
      ensures r.Ok? ==>
                && fresh(r.value)
                && SortedByStart(r.value[..]) && DistinctIds(r.value[..])
                && (forall i :: 0 <= i < r.value.Length ==> Shows(sandbox, r.value[i]))
                && (forall id | id in Expected(sandbox) :: HasId(r.value[..], id))
    {
      hide HasId;
      hide ExactIndex;
      hide LoadedFrom;
      var remembered := Remembered(sandbox);
      if fault {
        return Err(QueryFailed);
      }
      var out := WithRows(sandbox, remembered);
      var a := new ExecRecord[|out|](i requires 0 <= i < |out| => out[i]);
      assert a[..] == out;
      SortByStart(a);
      forall id | id in Expected(sandbox) ensures HasId(a[..], id) {
        HasIdSame(out, a[..], id);
      }
      forall i | 0 <= i < a.Length ensures Shows(sandbox, a[i]) {
        assert a[i] in a[..];
      }
      r := Ok(a);
    }

    /** Drops a sandbox's records from memory; rows stay. */
    method DeleteBySandbox(sandbox: string) returns (count: nat)
      requires Valid()
      modifies this
      ensures Valid()
      ensures Maps() == DropSandbox(old(Maps()), sandbox)
      ensures count == |IdsOf(old(Maps()), sandbox)|
      ensures forall id :: id in records <==> id in old(records) && old(records)[id].sandboxID != sandbox
    {
      hide ExactIndex;
      DropKeepsIndex(Maps(), SandboxOf(), sandbox);
      var ids := if sandbox in bySession then bySession[sandbox] else {};
      records := records - ids;
      bySession := bySession - {sandbox};
      assert Maps() == DropSandbox(old(Maps()), sandbox);
      assert SandboxOf() == old(SandboxOf()) - IdsOf(old(Maps()), sandbox);
      hide DropSandbox;
      count := |ids|;
    }

    /** Startup: every row left running becomes errored; a failing UPDATE changes none. */
    method Reconcile(now: int, fault: bool) returns (ok: bool)
      modifies db`execs
      ensures ok <==> !fault
      ensures db.execs == if fault then old(db.execs)
                          else map id | id in old(db.execs) :: ReconcileRow(old(db.execs)[id], now)
    {
      if fault {
        return false;
      }
      db.execs := map id | id in db.execs :: if db.execs[id].status == "running" then StaleRow(db.execs[id], now)
                                             else db.execs[id];
      ok := true;
    }
  }

  /**
   A new record is registered; memory then loses it, with its whole sandbox; whoever asks gets it back from its
   row: the same exec, running, with nothing captured.
   */
  method RegisterThenForget(registry: Registry, rec: ExecRecord, fault: bool) returns (r: Result<ExecRecord, LookupError>)
    requires registry.Valid() && exists maxBytes :: rec.State() == FreshLog(maxBytes)
    requires rec.id !in registry.records && rec.id !in registry.db.execs && rec.sandboxID in registry.db.sandboxes
    modifies registry, registry.db`execs
    ensures registry.Valid() && rec.id !in registry.records
    ensures r.Ok? <==> !fault
    ensures r.Ok? ==> Restored(r.value, rec) && fresh(r.value)
  {
    hide ExactIndex;
    hide InsertedRow;
    hide LoadedFrom;
    ghost var maxBytes :| rec.State() == FreshLog(maxBytes);
    var registered := registry.Register(rec, fault);
    assert registered.Err? ==> registered.error == AlreadyRegistered || registered.error == InsertFailed;
    assert registered.Ok? ==> registry.Maps().records[rec.id] == rec;
    var n := registry.DeleteBySandbox(rec.sandboxID);
    assert rec.id !in registry.records;
    r := registry.Get(rec.id, false);
    if r.Ok? {
      InsertedRowReloads(r.value, rec, maxBytes);
    }
  }
}
