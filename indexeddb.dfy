/** The interface of the IndexedDB engine that the store drives. Only what the
    store depends on is here: request objects with handler slots, the events
    delivered to them, and a database's set of object stores. What the engine
    does with puts, counts and cursors is not modelled; its events are inputs. */
module IndexedDB {
  import opened Js

  /** `evt.target` of a request event: the request's `result` and `error`. */
  datatype Target = Target(result: Value, error: Value)

  /** A request event: `evt.target`, and `evt.result`, the event's own field. */
  datatype Event = Event(target: Target, result: Value)

  /** What the engine delivers to a request: a success or an error event. */
  datatype Signal = Success(evt: Event) | Error(evt: Event)

  /** A handler property of a request: `undefined`, `null`, a function this code
      did not install, or one of this code's closures. */
  datatype Slot<+H> = UndefinedSlot | NullSlot | Foreign | Set(handler: H)

  /** The mode argument of `db.transaction`; `DefaultMode` when it is omitted. */
  datatype Mode = ReadOnly | ReadWrite | DefaultMode

  /** The engine call a request was created by. */
  datatype Operation =
    | OpenDatabase(name: Value, version: int)
    | Put(value: Value)
    | Count
    | GetKey(key: Value)
    | ClearStore
    | OpenCursor

  /** A request object (`IDBRequest`, `IDBOpenDBRequest`). `onupgradeneeded`
      holds closures of type U; `onsuccess` and `onerror` closures of type H. */
  class Request<U, H> {
    const operation: Operation
    /** The transaction scope, mode and object store the request runs in; empty for an open. */
    const scope: seq<string>
    const mode: Mode
    const storeName: string
    var onupgradeneeded: Slot<U>
    var onsuccess: Slot<H>
    var onerror: Slot<H>

    /** The engine creates requests with `null` handlers. */
    constructor (operation: Operation, scope: seq<string>, mode: Mode, storeName: string)
      ensures this.operation == operation && this.scope == scope
      ensures this.mode == mode && this.storeName == storeName
      ensures onupgradeneeded == NullSlot && onsuccess == NullSlot && onerror == NullSlot
    {
      this.operation := operation;
      this.scope := scope;
      this.mode := mode;
      this.storeName := storeName;
      onupgradeneeded, onsuccess, onerror := NullSlot, NullSlot, NullSlot;
    }
  }

  /** An object store as created: its key option and its values. */
  datatype ObjectStore = ObjectStore(autoIncrement: bool, values: seq<Value>)

  /** A connection (`IDBDatabase`): its object stores by name. */
  class Database {
    var stores: map<string, ObjectStore>

    constructor (stores: map<string, ObjectStore>)
      ensures this.stores == stores
    {
      this.stores := stores;
    }

    /** `objectStoreNames.contains(name)`. */
    function Contains(name: string): (b: bool)
      reads this
      ensures b <==> name in stores.Keys
    {
      name in stores
    }

    /** `createObjectStore(name, { autoIncrement: ... })`; the engine refuses an
        existing name, so callers guard against it. */
    method CreateObjectStore(name: string, autoIncrement: bool)
      requires name !in stores
      modifies this
      ensures stores == old(stores)[name := ObjectStore(autoIncrement, [])]
    {
      stores := stores[name := ObjectStore(autoIncrement, [])];
    }

    /** `transaction(scope, mode).objectStore(storeName).<operation>`: issues a
        request, or throws `NotFoundError` when a named store does not exist. */
    method Issue<U, H>(scope: seq<string>, mode: Mode, storeName: string, operation: Operation)
      returns (r: Completion<Request<U, H>>)
      ensures r.Throw? <==> (exists i :: 0 <= i < |scope| && scope[i] !in stores) || storeName !in stores
      ensures r.Throw? ==> r.exception == NotFound
      ensures r.Normal? ==> fresh(r.value) && r.value.operation == operation
      ensures r.Normal? ==> r.value.scope == scope && r.value.mode == mode && r.value.storeName == storeName
      ensures r.Normal? ==> r.value.onsuccess == NullSlot && r.value.onerror == NullSlot
    {
      if (exists i :: 0 <= i < |scope| && scope[i] !in stores) || storeName !in stores {
        return Throw(NotFound);
      }
      var request := new Request(operation, scope, mode, storeName);
      return Normal(request);
    }
  }

  const NotFound: Value := Exception("NotFoundError", "One of the specified object stores was not found.")

  /** The engine's entry point (`window.indexedDB`). `opens` is the history of
      the open requests it was asked for, in order. */
  class Factory {
    ghost var opens: seq<Operation>

    constructor ()
      ensures opens == []
    {
      opens := [];
    }

    /** `open(name, version)`: a fresh open request. */
    method Open<U, H>(name: Value, version: int) returns (r: Request<U, H>)
      modifies this
      ensures opens == old(opens) + [OpenDatabase(name, version)]
      ensures fresh(r) && r.operation == OpenDatabase(name, version)
      ensures r.onupgradeneeded == NullSlot && r.onsuccess == NullSlot && r.onerror == NullSlot
    {
      r := new Request(OpenDatabase(name, version), [], DefaultMode, "");
      opens := opens + [OpenDatabase(name, version)];
    }
  }
}
