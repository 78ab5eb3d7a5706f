/** The deferred objects of the Q promise library, seen only as a settle-once state. */
module Q {
  import opened Js

  datatype Settlement = Pending | Resolved(value: Value) | Rejected(reason: Value)

  /** A deferred keeps its first settlement; later resolve/reject calls are ignored. */
  function Settle(s: Settlement, t: Settlement): Settlement {
    if s.Pending? then t else s
  }

  /** `Q.defer()`: its `state` is the state of `defer.promise`. */
  class Deferred {
    var state: Settlement

    constructor ()
      ensures state == Pending
    {
      state := Pending;
    }

    method Resolve(v: Value)
      modifies this
      ensures state == Settle(old(state), Resolved(v))
    {
      if state.Pending? {
        state := Resolved(v);
      }
    }

    method Reject(e: Value)
      modifies this
      ensures state == Settle(old(state), Rejected(e))
    {
      if state.Pending? {
        state := Rejected(e);
      }
    }
  }
}
