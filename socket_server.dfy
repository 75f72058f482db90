/** The process-wide real-time transport: a Socket.io server created at most once. */
module SocketServer {
  import opened Common

  /** The HTTP server a transport is attached to. */
  class HttpServer {
    constructor () {}
  }

  /** The payload of a `newNotification` event. */
  datatype Event = NewNotification(userId: Id, message: string, createdAt: Time)

  /** A Socket.io server; `emitted` records every event it has broadcast. */
  class IoServer {
    const server: HttpServer
    var emitted: seq<Event>

    constructor (server: HttpServer)
      ensures this.server == server && emitted == []
    {
      this.server := server;
      emitted := [];
    }

    /** `io.emit("newNotification", e)`. */
    method Emit(e: Event)
      modifies this
      ensures emitted == old(emitted) + [e]
    {
      emitted := emitted + [e];
    }
  }

  /** The module-level `let io`, which starts as `null`. */
  class Registry {
    var io: IoServer?
    ghost var initialized: bool

    /** The handle is set exactly when `initSocket` has run. */
    ghost predicate Valid()
      reads this
    {
      initialized <==> io != null
    }

    constructor ()
      ensures Valid() && io == null && !initialized
    {
      io := null;
      initialized := false;
    }

    /** `initSocket(server)`: the first call creates and stores a new handle; later calls return
        the stored one and replace nothing. */
    method InitSocket(server: HttpServer) returns (r: IoServer)
      requires Valid()
      modifies this
      ensures Valid() && initialized && io == r
      ensures old(io) != null ==> r == old(io)
      ensures old(io) == null ==> fresh(r) && r.server == server && r.emitted == []
    {
      if io != null {
        return io;
      }
      r := new IoServer(server);
      io := r;
      initialized := true;
    }

    /** `getIO()`: the handle, or `null` when `initSocket` never ran. */
    method GetIO() returns (r: IoServer?)
      requires Valid()
      ensures r == io
      ensures r == null <==> !initialized
    {
      r := io;
    }
  }
}
