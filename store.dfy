/** lib/IndexedDBStore.js: a promise-returning store over one IndexedDB object
    store. The engine's answers (the database object, the events it delivers)
    are inputs of each operation. */
module Store {
  import opened Js
  import opened Q
  import opened IndexedDB

  const STORE_NAME: string := "test"
  const VERSION: int := 2

  const Unsupported: Value := Exception("Error", "IndexedDB does not seem to be supported in your environment")
  /** Reading `dbName` of an `undefined` options argument; the message is the host's. */
  const NoOptions: Value := Exception("TypeError", "")

  /** The options the store reads: `options.dbName` (`Undefined` when absent). */
  datatype Options = Options(dbName: Value)

  // ---------------------------------------------------------------------------
  // The upgrade guard

  /** The object stores after the upgrade handler ran: `STORE_NAME` is there,
      created empty with auto-increment keys if it was missing, and nothing
      else is added or changed. */
  function Upgraded(stores: map<string, ObjectStore>): (r: map<string, ObjectStore>)
    ensures STORE_NAME in r
    ensures r.Keys == stores.Keys + {STORE_NAME}
    ensures forall name | name in stores :: r[name] == stores[name]
    ensures STORE_NAME !in stores ==> r[STORE_NAME] == ObjectStore(true, [])
  {
    if STORE_NAME in stores then stores else stores[STORE_NAME := ObjectStore(true, [])]
  }

  /** Running the upgrade handler a second time changes nothing. */
  lemma UpgradeIdempotent(stores: map<string, ObjectStore>)
    ensures Upgraded(Upgraded(stores)) == Upgraded(stores)
  {
  }

  /** The closure `getDb` installs as `onupgradeneeded`. */
  datatype Upgrade = EnsureStore

  /** `onupgradeneeded` with `evt.target.result` being `thisDb`. */
  method OnUpgradeNeeded(thisDb: Database)
    modifies thisDb
    ensures thisDb.stores == Upgraded(old(thisDb.stores))
  {
    if !thisDb.Contains(STORE_NAME) {
      thisDb.CreateObjectStore(STORE_NAME, true);
    }
  }

  // ---------------------------------------------------------------------------
  // The closures installed as `onsuccess` and `onerror`

  /** The `records` array of `all()`. */
  class Records {
    var items: seq<Value>

    constructor ()
      ensures items == []
    {
      items := [];
    }
  }

  datatype Callback =
    | ResolveWithTargetResult(defer: Deferred)  // getDb and size: `defer.resolve(evt.target.result)`
    | RejectWithTargetError(defer: Deferred)    // every `onerror`: `defer.reject(evt.target.error)`
    | ResolveWithValue(defer: Deferred, value: Value)  // save: `defer.resolve(blob)`
    | ResolveWithEventResult(defer: Deferred)   // get: `defer.resolve(evt.result)`
    | ResolveWithNothing(defer: Deferred)       // clear: `defer.resolve()`
    | CollectCursor(defer: Deferred, records: Records)  // all: push and continue, or resolve

  function Captured(h: Callback): set<object> {
    if h.CollectCursor? then {h.defer, h.records} else {h.defer}
  }

  /** `cursor.value`; `undefined` on anything that is not a cursor. */
  function CursorValue(cursor: Value): Value {
    if cursor.Cursor? then cursor.value else Undefined
  }

  /** What a non-cursor closure settles its deferred with, for an event. */
  function Reaction(h: Callback, evt: Event): Settlement
    requires !h.CollectCursor?
  {
    match h
    case ResolveWithTargetResult(_) => Resolved(evt.target.result)
    case RejectWithTargetError(_) => Rejected(evt.target.error)
    case ResolveWithValue(_, v) => Resolved(v)
    case ResolveWithEventResult(_) => Resolved(evt.result)
    case ResolveWithNothing(_) => Resolved(Undefined)
  }

  /** Runs a closure on an event. The cursor closure pushes one wrapped record
      per non-null cursor (and asks the cursor to continue, which is the
      engine's), and resolves with the records once the cursor is null. */
  method Invoke(h: Callback, evt: Event)
    modifies Captured(h)
    ensures !h.CollectCursor? ==> h.defer.state == Settle(old(h.defer.state), Reaction(h, evt))
    ensures h.CollectCursor? && Truthy(evt.target.result) ==>
              h.records.items == old(h.records.items) + [Blob(CursorValue(evt.target.result))]
              && h.defer.state == old(h.defer.state)
    ensures h.CollectCursor? && !Truthy(evt.target.result) ==>
              h.records.items == old(h.records.items)
              && h.defer.state == Settle(old(h.defer.state), Resolved(Array(old(h.records.items))))
  {
    match h
    case ResolveWithTargetResult(defer) => defer.Resolve(evt.target.result);
    case RejectWithTargetError(defer) => defer.Reject(evt.target.error);
    case ResolveWithValue(defer, v) => defer.Resolve(v);
    case ResolveWithEventResult(defer) => defer.Resolve(evt.result);
    case ResolveWithNothing(defer) => defer.Resolve(Undefined);
    case CollectCursor(defer, records) =>
      var cursor := evt.target.result;
      if Truthy(cursor) {
        records.items := records.items + [Blob(CursorValue(cursor))];
      } else {
        defer.Resolve(Array(records.items));
      }
  }

  /** The engine delivering a signal to the handler property it calls. */
  method Deliver<U>(request: Request<U, Callback>, signal: Signal)
    requires (if signal.Success? then request.onsuccess else request.onerror).Set?
    modifies Captured((if signal.Success? then request.onsuccess else request.onerror).handler)
    ensures var h := (if signal.Success? then request.onsuccess else request.onerror).handler;
            && (!h.CollectCursor? ==> h.defer.state == Settle(old(h.defer.state), Reaction(h, signal.evt)))
            && (h.CollectCursor? && Truthy(signal.evt.target.result) ==>
                  h.records.items == old(h.records.items) + [Blob(CursorValue(signal.evt.target.result))]
                  && h.defer.state == old(h.defer.state))
            && (h.CollectCursor? && !Truthy(signal.evt.target.result) ==>
                  h.records.items == old(h.records.items)
                  && h.defer.state == Settle(old(h.defer.state), Resolved(Array(old(h.records.items)))))
  {
    var slot := if signal.Success? then request.onsuccess else request.onerror;
    Invoke(slot.handler, signal.evt);
  }

  // ---------------------------------------------------------------------------
  // The cursor loop of all(), as a function of the delivered signals

  /** The records pushed for the signals, in delivery order. */
  function Collected(signals: seq<Signal>): seq<Value>
  {
    if signals == [] then []
    else
      var last := signals[|signals| - 1];
      Collected(signals[..|signals| - 1])
        + (if last.Success? && Truthy(last.evt.target.result) then [Blob(CursorValue(last.evt.target.result))] else [])
  }

  /** The state of the deferred of `all()` after the signals: the first null
      cursor resolves it with the records pushed before, the first error
      rejects it with `evt.target.error`; later signals change nothing. */
  function Scanned(signals: seq<Signal>): Settlement
  {
    if signals == [] then Pending
    else
      var front := signals[..|signals| - 1];
      var last := signals[|signals| - 1];
      Settle(Scanned(front),
        if last.Error? then Rejected(last.evt.target.error)
        else if Truthy(last.evt.target.result) then Pending
        else Resolved(Array(Collected(front))))
  }

  /** The success signal that carries a cursor positioned on `value`. */
  predicate IsRecordSignal(signal: Signal, value: Value) {
    signal.Success? && signal.evt.target.result == Cursor(value)
  }

  function Blobs(values: seq<Value>): (r: seq<Value>)
    ensures |r| == |values|
    ensures forall i | 0 <= i < |values| :: r[i] == Blob(values[i])
  {
    seq(|values|, i requires 0 <= i < |values| => Blob(values[i]))
  }

  /** While the cursor delivers records, each one appends exactly its wrapped
      value, in delivery order, and the deferred stays pending. */
  lemma {:induction false} RecordsAccumulate(signals: seq<Signal>, values: seq<Value>)
    requires |signals| == |values|
    requires forall i | 0 <= i < |signals| :: IsRecordSignal(signals[i], values[i])
    ensures Collected(signals) == Blobs(values)
    ensures Scanned(signals) == Pending
  {
    if signals != [] {
      var n := |signals| - 1;
      RecordsAccumulate(signals[..n], values[..n]);
      assert Blobs(values) == Blobs(values[..n]) + [Blob(values[n])];
    }
  }

  /** `all()` over k records then a null cursor resolves with the k wrapped
      records, in order: the list is as long as the number of records. */
  lemma AllResolvesWithRecords(signals: seq<Signal>, values: seq<Value>, end: Signal)
    requires |signals| == |values|
    requires forall i | 0 <= i < |signals| :: IsRecordSignal(signals[i], values[i])
    requires end.Success? && !Truthy(end.evt.target.result)
    ensures Scanned(signals + [end]) == Resolved(Array(Blobs(values)))
  {
    RecordsAccumulate(signals, values);
    assert (signals + [end])[..|signals|] == signals;
  }

  /** An error event after any number of records rejects with `evt.target.error`. */
  lemma AllRejectsOnError(signals: seq<Signal>, values: seq<Value>, failure: Signal)
    requires |signals| == |values|
    requires forall i | 0 <= i < |signals| :: IsRecordSignal(signals[i], values[i])
    requires failure.Error?
    ensures Scanned(signals + [failure]) == Rejected(failure.evt.target.error)
  {
    RecordsAccumulate(signals, values);
    assert (signals + [failure])[..|signals|] == signals;
  }

  /** Once settled, the deferred of `all()` keeps its settlement whatever follows. */
  lemma {:induction false} ScannedSettlesOnce(signals: seq<Signal>, more: seq<Signal>)
    requires !Scanned(signals).Pending?
    ensures Scanned(signals + more) == Scanned(signals)
    decreases |more|
  {
    if more == [] {
      assert signals + more == signals;
    } else {
      var n := |more| - 1;
      assert (signals + more)[..|signals + more| - 1] == signals + more[..n];
      ScannedSettlesOnce(signals, more[..n]);
    }
  }

  // ---------------------------------------------------------------------------
  // get, as written and as evidently intended

  /** What the deferred of `get` settles with: `evt.result`, the event's own
      field, where the other operations read `evt.target.result`. */
  function GetOutcome(signal: Signal): Settlement {
    if signal.Success? then Resolved(signal.evt.result) else Rejected(signal.evt.target.error)
  }

  /** An IndexedDB success event has no `result` field of its own: the record
      found is `evt.target.result`. For such an event, `get` as written
      resolves with `undefined`, not with the record. */
  lemma GetMissesFoundRecord()
    ensures var found := Success(Event(Target(Str("Test"), Null), Undefined));
            GetOutcome(found) == Resolved(Undefined) && GetOutcome(found) != Resolved(Str("Test"))
  {
  }

  /** `get` reading `evt.target.result`, as the other operations do. */
  function IntendedGetOutcome(signal: Signal): Settlement {
    if signal.Success? then Resolved(signal.evt.target.result) else Rejected(signal.evt.target.error)
  }

  /** Corrected, `get` resolves with the record the engine found, whatever the
      event's own fields hold, and still rejects with `evt.target.error`. */
  lemma IntendedGetFindsRecord(record: Value, error: Value, own: Value)
    ensures IntendedGetOutcome(Success(Event(Target(record, error), own))) == Resolved(record)
    ensures IntendedGetOutcome(Error(Event(Target(record, error), own))) == Rejected(error)
  {
  }

  // ---------------------------------------------------------------------------
  // The store

  /** The open request as `getDb` leaves it. */
  type OpenRequest = Request<Upgrade, Callback>

  /** What the engine does with an open request: whether it fires
      `upgradeneeded` first, then its success or error. */
  datatype OpenDelivery = OpenDelivery(upgradeNeeded: bool, outcome: Signal)

  /** The object stores after an open delivery. */
  function AfterOpen(stores: map<string, ObjectStore>, open: OpenDelivery): map<string, ObjectStore> {
    if open.upgradeNeeded then Upgraded(stores) else stores
  }

  class IndexedDBStore {
    /** `this._db`: the engine found in the environment. */
    const factory: Factory
    const options: Options
    const name: Value

    constructor (factory: Factory, options: Options)
      ensures this.factory == factory && this.options == options
      ensures name == options.dbName
    {
      this.factory := factory;
      this.options := options;
      this.name := options.dbName;
    }

    /** `new IndexedDBStore(options)`: `options.dbName` is read first (a TypeError
        when `options` is undefined), then a missing engine throws; otherwise the
        store is made and opens the database once, dropping that promise. */
    static method New(factory: Factory?, options: Option<Options>) returns (r: Completion<IndexedDBStore>)
      modifies factory
      ensures options.None? ==> r == Throw(NoOptions)
      ensures options.Some? && factory == null ==> r == Throw(Unsupported)
      ensures options.Some? && factory != null ==>
                r.Normal? && fresh(r.value) && r.value.factory == factory
                && r.value.options == options.value && r.value.name == options.value.dbName
      ensures factory != null && r.Throw? ==> factory.opens == old(factory.opens)
      ensures factory != null && r.Normal? ==>
                factory.opens == old(factory.opens) + [OpenDatabase(options.value.dbName, VERSION)]
    {
      if options.None? {
        return Throw(NoOptions);
      }
      if factory == null {
        return Throw(Unsupported);
      }
      var store := new IndexedDBStore(factory, options.value);
      var _, _ := store.GetDb();
      return Normal(store);
    }

    /** `getDb`: opens `name` at `VERSION` and installs the upgrade guard and the
        handlers that settle the returned deferred. */
    method GetDb() returns (request: OpenRequest, defer: Deferred)
      modifies factory
      ensures factory.opens == old(factory.opens) + [OpenDatabase(name, VERSION)]
      ensures fresh(request) && fresh(defer) && defer.state == Pending
      ensures request.operation == OpenDatabase(name, VERSION)
      ensures request.onupgradeneeded == Set(EnsureStore)
      ensures request.onsuccess == Set(ResolveWithTargetResult(defer))
      ensures request.onerror == Set(RejectWithTargetError(defer))
    {
      request := factory.Open(name, VERSION);
      defer := new Deferred();
      request.onupgradeneeded := Set(EnsureStore);
      request.onsuccess := Set(ResolveWithTargetResult(defer));
      request.onerror := Set(RejectWithTargetError(defer));
    }

    /** `getDb` followed by the engine's open events, `db` being the database
        they carry: the upgrade guard runs on `upgradeneeded`, success
        resolves with `evt.target.result`, error rejects with `evt.target.error`. */
    method Connect(db: Database, open: OpenDelivery) returns (connected: Settlement)
      modifies db, factory
      ensures db.stores == AfterOpen(old(db.stores), open)
      ensures factory.opens == old(factory.opens) + [OpenDatabase(name, VERSION)]
      ensures connected == if open.outcome.Success? then Resolved(open.outcome.evt.target.result)
                        else Rejected(open.outcome.evt.target.error)
    {
      var request, defer := GetDb();
      if open.upgradeNeeded {
        match request.onupgradeneeded
        case Set(EnsureStore) => OnUpgradeNeeded(db);
        case _ =>
      }
      Deliver(request, open.outcome);
      connected := defer.state;
    }

    /** `all()`: the records the cursor delivers, each wrapped in a Blob. */
    method All(db: Database, open: OpenDelivery, signals: seq<Signal>) returns (p: Settlement, request: Option<Request<Upgrade, Callback>>)
      modifies db, factory
      ensures db.stores == AfterOpen(old(db.stores), open)
      ensures factory.opens == old(factory.opens) + [OpenDatabase(name, VERSION)]
      ensures open.outcome.Error? ==> p == Rejected(open.outcome.evt.target.error) && request.None?
      ensures open.outcome.Success? && STORE_NAME !in db.stores ==> p == Rejected(NotFound) && request.None?
      ensures open.outcome.Success? && STORE_NAME in db.stores ==>
                p == Scanned(signals) && request.Some?
                && request.value.operation == OpenCursor && request.value.mode == ReadOnly
                && request.value.scope == [STORE_NAME] && request.value.storeName == STORE_NAME
    {
      request := None;
      var connected := Connect(db, open);
      if connected.Rejected? {
        return connected, None;
      }
      var issued := db.Issue<Upgrade, Callback>([STORE_NAME], ReadOnly, STORE_NAME, OpenCursor);
      if issued.Throw? {
        return Rejected(issued.exception), None;
      }
      var conn := issued.value;
      var records := new Records();
      var defer := new Deferred();
      conn.onerror := Set(RejectWithTargetError(defer));
      conn.onsuccess := Set(CollectCursor(defer, records));
      var i := 0;
      while i < |signals|
        invariant 0 <= i <= |signals|
        invariant db.stores == AfterOpen(old(db.stores), open) && STORE_NAME in db.stores
        invariant factory.opens == old(factory.opens) + [OpenDatabase(name, VERSION)]
        invariant conn.onerror == Set(RejectWithTargetError(defer))
        invariant conn.onsuccess == Set(CollectCursor(defer, records))
        invariant records.items == Collected(signals[..i])
        invariant defer.state == Scanned(signals[..i])
      {
        assert signals[..i + 1][..i] == signals[..i];
        Deliver(conn, signals[i]);
        i := i + 1;
      }
      assert signals[..i] == signals;
      return defer.state, Some(conn);
    }

    /** `save(blob)`: puts `blob` and resolves with `blob` itself, not the key. */
    method Save(blob: Value, db: Database, open: OpenDelivery, put: Signal) returns (p: Settlement, request: Option<Request<Upgrade, Callback>>)
      modifies db, factory
      ensures db.stores == AfterOpen(old(db.stores), open)
      ensures factory.opens == old(factory.opens) + [OpenDatabase(name, VERSION)]
      ensures open.outcome.Error? ==> p == Rejected(open.outcome.evt.target.error) && request.None?
      ensures open.outcome.Success? && STORE_NAME !in db.stores ==> p == Rejected(NotFound) && request.None?
      ensures open.outcome.Success? && STORE_NAME in db.stores ==>
                p == (if put.Success? then Resolved(blob) else Rejected(put.evt.target.error))
                && request.Some?
                && request.value.operation == Put(blob) && request.value.mode == ReadWrite
                && request.value.scope == [STORE_NAME] && request.value.storeName == STORE_NAME
    {
      var connected := Connect(db, open);
      if connected.Rejected? {
        return connected, None;
      }
      var issued := db.Issue<Upgrade, Callback>([STORE_NAME], ReadWrite, STORE_NAME, Put(blob));
      if issued.Throw? {
        return Rejected(issued.exception), None;
      }
      var conn := issued.value;
      var defer := new Deferred();
      conn.onerror := Set(RejectWithTargetError(defer));
      conn.onsuccess := Set(ResolveWithValue(defer, blob));
      Deliver(conn, put);
      return defer.state, Some(conn);
    }

    /** `size()`: resolves with the count request's `evt.target.result`. */
    method Size(db: Database, open: OpenDelivery, count: Signal) returns (p: Settlement, request: Option<Request<Upgrade, Callback>>)
      modifies db, factory
      ensures db.stores == AfterOpen(old(db.stores), open)
      ensures factory.opens == old(factory.opens) + [OpenDatabase(name, VERSION)]
      ensures open.outcome.Error? ==> p == Rejected(open.outcome.evt.target.error) && request.None?
      ensures open.outcome.Success? && STORE_NAME !in db.stores ==> p == Rejected(NotFound) && request.None?
      ensures open.outcome.Success? && STORE_NAME in db.stores ==>
                p == (if count.Success? then Resolved(count.evt.target.result) else Rejected(count.evt.target.error))
                && request.Some?
                && request.value.operation == Count && request.value.mode == DefaultMode
                && request.value.scope == [STORE_NAME] && request.value.storeName == STORE_NAME
    {
      var connected := Connect(db, open);
      if connected.Rejected? {
        return connected, None;
      }
      var issued := db.Issue<Upgrade, Callback>([STORE_NAME], DefaultMode, STORE_NAME, Count);
      if issued.Throw? {
        return Rejected(issued.exception), None;
      }
      var conn := issued.value;
      var defer := new Deferred();
      conn.onerror := Set(RejectWithTargetError(defer));
      conn.onsuccess := Set(ResolveWithTargetResult(defer));
      Deliver(conn, count);
      return defer.state, Some(conn);
    }

    /** `get(id)`: resolves with `evt.result`, the event's own field. */
    method Get(id: Value, db: Database, open: OpenDelivery, lookup: Signal) returns (p: Settlement, request: Option<Request<Upgrade, Callback>>)
      modifies db, factory
      ensures db.stores == AfterOpen(old(db.stores), open)
      ensures factory.opens == old(factory.opens) + [OpenDatabase(name, VERSION)]
      ensures open.outcome.Error? ==> p == Rejected(open.outcome.evt.target.error) && request.None?
      ensures open.outcome.Success? && STORE_NAME !in db.stores ==> p == Rejected(NotFound) && request.None?
      ensures open.outcome.Success? && STORE_NAME in db.stores ==>
                p == GetOutcome(lookup)
                && request.Some?
                && request.value.operation == GetKey(id) && request.value.mode == ReadOnly
                && request.value.scope == [STORE_NAME] && request.value.storeName == STORE_NAME
    {
      var connected := Connect(db, open);
      if connected.Rejected? {
        return connected, None;
      }
      var issued := db.Issue<Upgrade, Callback>([STORE_NAME], ReadOnly, STORE_NAME, GetKey(id));
      if issued.Throw? {
        return Rejected(issued.exception), None;
      }
      var conn := issued.value;
      var defer := new Deferred();
      conn.onerror := Set(RejectWithTargetError(defer));
      conn.onsuccess := Set(ResolveWithEventResult(defer));
      Deliver(conn, lookup);
      return defer.state, Some(conn);
    }

    /** `clear()`: resolves with no value. */
    method Clear(db: Database, open: OpenDelivery, cleared: Signal) returns (p: Settlement, request: Option<Request<Upgrade, Callback>>)
      modifies db, factory
      ensures db.stores == AfterOpen(old(db.stores), open)
      ensures factory.opens == old(factory.opens) + [OpenDatabase(name, VERSION)]
      ensures open.outcome.Error? ==> p == Rejected(open.outcome.evt.target.error) && request.None?
      ensures open.outcome.Success? && STORE_NAME !in db.stores ==> p == Rejected(NotFound) && request.None?
      ensures open.outcome.Success? && STORE_NAME in db.stores ==>
                p == (if cleared.Success? then Resolved(Undefined) else Rejected(cleared.evt.target.error))
                && request.Some?
                && request.value.operation == ClearStore && request.value.mode == ReadWrite
                && request.value.scope == [STORE_NAME] && request.value.storeName == STORE_NAME
    {
      var connected := Connect(db, open);
      if connected.Rejected? {
        return connected, None;
      }
      var defer := new Deferred();
      var issued := db.Issue<Upgrade, Callback>([STORE_NAME], ReadWrite, STORE_NAME, ClearStore);
      if issued.Throw? {
        return Rejected(issued.exception), None;
      }
      var conn := issued.value;
      conn.onerror := Set(RejectWithTargetError(defer));
      conn.onsuccess := Set(ResolveWithNothing(defer));
      Deliver(conn, cleared);
      return defer.state, Some(conn);
    }
  }
}
