/**
 * The process-wide socket.io handle (frontend/lib/socket.ts): a slot set once by the
 * custom server and read by the route handlers, which fail fast when it is empty.
 * The server itself is reduced to the log of events emitted through it.
 */
module Socket {
  import opened Wrappers
  import SessionStore

  /** An event sent to a room; the modelled code emits only `task:created` with a todo. */
  datatype Event = Event(room: string, name: string, todo: SessionStore.Todo)

  const NotInitialized := "Socket.io not initialized"

  /** The socket.io server, seen as an append-only log of emitted events. */
  class Hub {
    var emitted: seq<Event>

    constructor()
      ensures emitted == []
    {
      emitted := [];
    }

    /** `io.to(room).emit(name, todo)`. */
    method Emit(room: string, name: string, todo: SessionStore.Todo)
      modifies this
      ensures emitted == old(emitted) + [Event(room, name, todo)]
    {
      emitted := emitted + [Event(room, name, todo)];
    }
  }

  /** The global slot `__opticon_io`, empty until `setIO`. */
  class IoSlot {
    var server: Hub?

    constructor()
      ensures server == null
    {
      server := null;
    }

    /** Stores the server; a later call overwrites an earlier one. */
    method SetIO(s: Hub)
      modifies this
      ensures server == s
    {
      server := s;
    }

    /** The stored server, or the "not initialized" error when nothing was stored.
        Reading does not change the slot. */
    function GetIO(): (r: Result<Hub>)
      reads this
      ensures r.Failure? <==> server == null
      ensures r.Failure? ==> r.error == NotInitialized
      ensures r.Success? ==> r.value == server
    {
      if server == null then Failure(NotInitialized) else Success(server)
    }
  }

  /** The two socket unit tests in sequence: reading an empty slot fails, and after
      `setIO(s)` reading gives back exactly `s`; a second `setIO` wins. */
  method SlotLifecycle(first: Hub, second: Hub) returns (before: Result<Hub>, afterFirst: Result<Hub>, afterSecond: Result<Hub>)
    ensures before == Failure(NotInitialized)
    ensures afterFirst == Success(first)
    ensures afterSecond == Success(second)
  {
    var slot := new IoSlot();
    before := slot.GetIO();
    slot.SetIO(first);
    afterFirst := slot.GetIO();
    slot.SetIO(second);
    afterSecond := slot.GetIO();
  }
}
