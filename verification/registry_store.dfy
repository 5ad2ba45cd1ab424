/** The registry's two in-memory maps as a value: records by exec id, and exec ids by sandbox. */
module RegistryStore {

  datatype Store<T> = Store(records: map<string, T>, bySession: map<string, set<string>>)

  function EmptyStore<T>(): Store<T> {
    Store(map[], map[])
  }

  function IdsOf<T>(s: Store<T>, sandbox: string): set<string> {
    if sandbox in s.bySession then s.bySession[sandbox] else {}
  }

  function InsertRecord<T>(s: Store<T>, sandbox: string, id: string, rec: T): Store<T> {
    Store(s.records[id := rec], s.bySession[sandbox := IdsOf(s, sandbox) + {id}])
  }

  /** Rolls an insertion back; an emptied set is dropped. */
  function RemoveRecord<T>(s: Store<T>, sandbox: string, id: string): Store<T> {
    Store(s.records - {id},
          if sandbox !in s.bySession then s.bySession
          else if s.bySession[sandbox] - {id} == {} then s.bySession - {sandbox}
          else s.bySession[sandbox := s.bySession[sandbox] - {id}])
  }

  function DropSandbox<T>(s: Store<T>, sandbox: string): Store<T> {
    Store(s.records - IdsOf(s, sandbox), s.bySession - {sandbox})
  }

  /** The index is the exact inverse of the records, with no empty sets. */
  ghost predicate ExactIndex<T>(s: Store<T>, sandboxOf: map<string, string>) {
    && sandboxOf.Keys == s.records.Keys
    && (forall id | id in s.records ::
          sandboxOf[id] in s.bySession && id in s.bySession[sandboxOf[id]])
    && (forall sandbox | sandbox in s.bySession ::
          s.bySession[sandbox] != {} &&
          forall id | id in s.bySession[sandbox] :: id in s.records && sandboxOf[id] == sandbox)
  }

  lemma {:induction false} InsertKeepsIndex<T>(s: Store<T>, of: map<string, string>, sandbox: string, id: string, rec: T)
    requires ExactIndex(s, of) && id !in s.records
    ensures ExactIndex(InsertRecord(s, sandbox, id, rec), of[id := sandbox])
  {
    var t := InsertRecord(s, sandbox, id, rec);
    assert id in t.bySession[sandbox];
  }

  lemma {:induction false} RemovedSet<T>(s: Store<T>, of: map<string, string>, sandbox: string, id: string, sb: string)
    requires ExactIndex(s, of) && (id in s.records ==> of[id] == sandbox)
    requires sb in RemoveRecord(s, sandbox, id).bySession
    ensures var ids := RemoveRecord(s, sandbox, id).bySession[sb];
            ids != {} && sb in s.bySession && ids == s.bySession[sb] - {id}
  {
    if sb != sandbox {
      assert id !in s.bySession[sb];
    }
  }

  lemma {:induction false} RemovedKeeps<T>(s: Store<T>, of: map<string, string>, sandbox: string, id: string, k: string)
    requires ExactIndex(s, of) && k in s.records && k != id
    ensures var t := RemoveRecord(s, sandbox, id); of[k] in t.bySession && k in t.bySession[of[k]]
  {
    assert of[k] in s.bySession && k in s.bySession[of[k]];
    hide ExactIndex;
    var ids := s.bySession[of[k]] - {id};
    assert k in ids;
  }

  lemma {:induction false} RemoveKeepsIndex<T>(s: Store<T>, of: map<string, string>, sandbox: string, id: string)
    requires ExactIndex(s, of) && (id in s.records ==> of[id] == sandbox)
    ensures ExactIndex(RemoveRecord(s, sandbox, id), of - {id})
  {
    hide RemoveRecord;
    var t := RemoveRecord(s, sandbox, id);
    RemovedRecords(s, sandbox, id);
    forall k | k in t.records ensures of[k] in t.bySession && k in t.bySession[of[k]] {
      RemovedKeeps(s, of, sandbox, id, k);
    }
    forall sb | sb in t.bySession
      ensures t.bySession[sb] != {} && forall k | k in t.bySession[sb] :: k in t.records && of[k] == sb
    {
      RemovedSet(s, of, sandbox, id, sb);
    }
  }

  /** A removal keeps the index exact unless the record it removes is another sandbox's than it thinks. */
  lemma {:induction false} RemoveKeepsIndexIff<T>(s: Store<T>, of: map<string, string>, sandbox: string, id: string)
    requires ExactIndex(s, of)
    ensures ExactIndex(RemoveRecord(s, sandbox, id), of - {id}) <==> (id in s.records ==> of[id] == sandbox)
  {
    if id in s.records && of[id] != sandbox {
      assert id in RemoveRecord(s, sandbox, id).bySession[of[id]];
      RemovedRecords(s, sandbox, id);
    } else {
      RemoveKeepsIndex(s, of, sandbox, id);
    }
  }

  lemma {:induction false} RemovedRecords<T>(s: Store<T>, sandbox: string, id: string)
    ensures RemoveRecord(s, sandbox, id).records == s.records - {id}
  {
  }

  lemma {:induction false} DropKeepsIndex<T>(s: Store<T>, of: map<string, string>, sandbox: string)
    requires ExactIndex(s, of)
    ensures ExactIndex(DropSandbox(s, sandbox), of - IdsOf(s, sandbox))
    ensures forall id :: id in DropSandbox(s, sandbox).records <==> id in s.records && of[id] != sandbox
  {
  }

  /** A registration that is rolled back leaves both maps as if it never ran. */
  lemma {:induction false} RollbackRestores<T>(s: Store<T>, of: map<string, string>, sandbox: string, id: string, rec: T)
    requires ExactIndex(s, of) && id !in s.records
    ensures RemoveRecord(InsertRecord(s, sandbox, id, rec), sandbox, id) == s
  {
    var t := InsertRecord(s, sandbox, id, rec);
    assert id !in IdsOf(s, sandbox);
    assert t.records - {id} == s.records;
    assert t.bySession[sandbox] - {id} == IdsOf(s, sandbox);
    if sandbox in s.bySession {
      assert t.bySession[sandbox := IdsOf(s, sandbox)] == s.bySession;
    } else {
      assert t.bySession - {sandbox} == s.bySession;
    }
  }
}
