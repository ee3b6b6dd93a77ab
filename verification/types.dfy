/**
 Data shared by the flotilla server model: addresses, errors, callback handles,
 the cached leader-connection handle, and the effects a server operation
 performs on the collaborators it cannot see (the state machine's callback
 table, the RPC stream layer, the consensus module).
 */
module Types {

  /** A network address in its printed form (`net.Addr.String()`). */
  type Addr = string

  type Bytes = seq<bv8>

  datatype Option<+T> = None | Some(value: T)

  /** Errors surfaced by the server. `CouldNotConnect` is the error the server
      builds itself when dialling the leader fails; `Raised` stands for an error
      value returned by a collaborator and passed through unchanged. */
  datatype Error = CouldNotConnect(leader: Addr) | Raised(detail: string)

  /** The handle `newCommand` hands out: the (origin address, request number)
      pair that correlates a committed entry with its waiting caller. */
  datatype Callback = Callback(origin: Addr, reqNo: nat)

  /** The cached connection to the leader: the remote address it was built
      against and whether its underlying socket is still open. A handle is a
      value: two handles are "the same" when their remote address and open
      flag agree, not by identity. */
  datatype Conn = Conn(remote: Addr, open: bool)

  /** One result delivered on a command's result channel. */
  datatype Result = Result(value: Option<Bytes>, err: Option<Error>)

  /** Observable actions on collaborators, in the order the server performs them. */
  datatype Effect =
    | CloseConn(conn: Conn)
    | DialLeader(addr: Addr, timeoutSeconds: nat)
    | WrapConn(localAddr: Addr)
    | NewCommand(cb: Callback)
    | ForwardCommand(conn: Conn, cb: Callback, name: string, args: seq<Bytes>)
    | CancelCallback(cb: Callback)
    | ApplyEntry(cb: Callback, name: string, args: seq<Bytes>, timeoutSeconds: nat)
    | RemovePeerCall(peer: Addr)

  predicate Dials(t: seq<Effect>) {
    exists i :: 0 <= i < |t| && t[i].DialLeader?
  }

  predicate Closes(t: seq<Effect>) {
    exists i :: 0 <= i < |t| && t[i].CloseConn?
  }

  predicate Allocates(t: seq<Effect>) {
    exists i :: 0 <= i < |t| && t[i].NewCommand?
  }

  predicate Cancels(t: seq<Effect>) {
    exists i :: 0 <= i < |t| && t[i].CancelCallback?
  }

  /** `e` touches no callback other than `cb`, and submits nothing to the
      consensus module. */
  predicate OnCallback(e: Effect, cb: Callback) {
    match e
    case NewCommand(c) => c == cb
    case ForwardCommand(_, c, _, _) => c == cb
    case CancelCallback(c) => c == cb
    case ApplyEntry(_, _, _, _) => false
    case RemovePeerCall(_) => false
    case _ => true
  }

  /** Every callback effect in `t` concerns `cb`, and `t` submits nothing to
      the consensus module. */
  predicate OnlyCallback(t: seq<Effect>, cb: Callback) {
    forall i :: 0 <= i < |t| ==> OnCallback(t[i], cb)
  }
}
