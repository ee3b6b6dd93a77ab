# flotilla server core, modelled in Dafny

flotilla is a replicated command-execution service: nodes agree on a log of
commands through Raft and apply each to an embedded store. The model covers
three parts of the node façade in `server.go`. It does not cover Raft or the
store.

- **Command registry merge** (`registry.dfy`, module `Registry`). At startup
  `NewDB` takes the built-in default commands and overlays the caller's
  commands on them. The caller wins on a name clash, and each clash logs a
  warning. `MergeCommands` is the loop itself. It visits the caller's names in
  an arbitrary order, because Go map iteration order is unspecified.
- **Leader forwarding** (`forward.dfy`, module `Forward`). `dispatchToLeader`
  runs under the leader lock, so one call is one atomic transition of the
  cached leader connection. Everything the call learns from its collaborators
  is an explicit input (`Env`):
  - the node's own RPC address, which `newConnToLeader` is given;
  - the leader the consensus module reports;
  - the outcome of the dial;
  - the outcome of `newConnToLeader`: an open handle to the socket's remote
    address, or the handle value and error it returned;
  - the outcome of the forward write;
  - the callback `newCommand` would hand out.

  The call returns the new cache, Go's `(callback, error)` pair (or a panic),
  and a trace of effects on collaborators. The effects are close, dial, wrap,
  allocate, forward and cancel.
- **Node operations** (`node.dfy`, module `Node`): `Command`, `Rsync`,
  `RemovePeer`, and the single-node bootstrap rule of `newRaft`. The node's
  role (`IsLeader` is `raft.State() == Leader`) is an input.

`types.dfy` (module `Types`) holds the shared data:
- addresses, errors and callback handles;
- the connection handle: remote address plus an open flag;
- results;
- the `Effect` trace alphabet.

Some behaviours of the code are easy to miss from its comments alone:

- The reuse test at server.go:243 compares only address strings. A handle
  that failed a write stays cached, and so does a handle that was closed
  before a failed redial. Every later dispatch that sees the same leader
  address forwards on that same handle again and never redials
  (`StableLeaderNeverRedials`, `FailedRedialLeavesClosedHandleInUse`,
  `WriteFailureKeepsHandle`). Calling `Command` again after a failed write
  therefore does not pick up a fresh connection.
- With no leader known, the reconnect branch closes the cached handle and
  then calls `String()` on a nil address (server.go:252). The model treats this
  as a panic outcome (`Panics` / `Panicked`), not as an ordinary error.
- `dispatchToLeader` never returns a callback together with an error, so the
  guarded cancel at server.go:227-229 never runs. The only cancellation is the
  one inside the dispatch (server.go:265). The comment at server.go:214-215
  says the returned channel blocks until the command is replicated locally.
  After a failed dispatch it is instead a one-slot channel that already holds
  the error.
- When `newConnToLeader` fails and returns no handle, the socket dialled at
  server.go:252 is neither cached nor closed by the dispatch
  (`DispatchClosesOnlyCachedHandle`).
- The comment at server.go:47 says an empty peer list starts the node as sole
  leader. The code enables single-node bootstrap only for a peer list of
  length exactly 1 (server.go:155).

## Model

| member | source | states |
|---|---|---|
| `Registry.MergeCommands` | server.go:64-71 | The merged registry is the defaults overridden by the caller's map. Its names are exactly the union of both name sets. Every caller name maps to the caller's executor, and names only in the defaults keep their default executor. A warning is logged for a name exactly when it is in both maps, and no name is warned about twice. All of this holds whatever order the caller's names are visited in. |
| `Registry.WarningPerClash` | server.go:66-69 | A warning log that names every clashing command once and nothing else has as many entries as there are clashing names. So the merge logs one warning per override. |
| `Forward.Dispatch` | server.go:239-269 | The reconnect branch runs unless a handle is cached, a leader is known, and the leader address equals the handle's remote address; a dial happens exactly when that branch runs with a leader known, and the call panics exactly when no leader is known. On that branch an existing handle is closed first, then the leader is dialled. A failed dial returns a could-not-connect error naming the leader, allocates no callback, and leaves the closed old handle cached. A failed `newConnToLeader` stores what that call returned and passes its error on; a successful one leaves a fresh, open handle cached. A callback is allocated exactly when a usable handle is in place; the command is forwarded on that handle, which is the one left cached. A successful write returns that callback and cancels nothing; a failed write cancels that same callback last and returns only the error. A result never holds both a callback and an error, and a cached handle is never dropped without being closed. The only callback any effect touches is the one `newCommand` hands out, and that is the one allocated; nothing is submitted to the consensus module. |
| `Forward.DispatchTrace` | server.go:243-268 | The complete effect trace of each path. On reuse: allocate the callback, write it on the cached handle, and cancel it if the write failed. With no leader known: close the cached handle, if any, and nothing more. A failed dial: close, then dial. A failed `newConnToLeader`: close, dial, wrap. Success: close, dial, wrap, allocate, write on the new handle, and cancel if the write failed. So at most one callback is allocated, it is written once, and it is cancelled at most once. |
| `Forward.DispatchClosesOnlyCachedHandle` | server.go:247-260 | The only handle a dispatch closes is the one that was cached when it started. When the dial succeeds but `newConnToLeader` fails and returns no handle, the cache ends up empty and the trace is just the close of the old handle (if any), the dial and the wrap. The dispatch itself does not close the dialled socket; whether `newConnToLeader` does is not visible. |
| `Forward.StableLeaderNeverRedials` | server.go:243 | Suppose the cache holds a handle whose remote address is the leader's and the leader stays the same. Then any number of dispatches never dial. They keep that same handle in the cache, and every forward write goes out on it, whatever the earlier writes returned. |
| `Forward.FailedRedialLeavesClosedHandleInUse` | server.go:243-255 | A redial that fails after the leader changed leaves the cache pointing at the old handle, now closed. If the old leader is then reported again, the closed handle passes the reuse test. All later dispatches forward on that closed handle without dialling. |
| `Forward.WriteFailureKeepsHandle` | server.go:243-266 | A failed forward write reports the write's error. It keeps the handle it wrote on, so the next dispatch that sees the same leader reuses it without dialling. |
| `Node.Command` | server.go:216-235 | On a leader: allocates a callback, submits the entry with the 60-second command timeout, returns that callback's channel without consulting the consensus outcome, and leaves the connection cache untouched. On a non-leader: has exactly the dispatch's effects and resulting cache (the cancel at lines 227-229 never adds one); a failed dispatch yields a one-slot channel prefilled with one result carrying no value and the dispatch error; a successful dispatch yields the forwarded callback's channel; it panics exactly when no leader is known. Every allocated callback is either handed to the caller or cancelled, never both. |
| `Node.Rsync` | server.go:275-279 | Rsync runs a `Noop` command with no arguments and has exactly that command's effects on the cache and collaborators. It panics exactly when that command panics. If a follower's dispatch fails, it returns the dispatch error at once. Otherwise it returns the error carried by the result delivered to the callback. |
| `Node.RemovePeer` | server.go:194-200 | A node that is not the leader returns no error and makes no membership request. A leader issues exactly one removal request for the given peer and returns that request's outcome. |
| `Node.ConfigureSingleNode` | server.go:154-157 | A one-address peer list turns single-node bootstrap on. Any other length leaves the given configuration unchanged. |
| `Node.SingleNodeExactlyWhenOnePeer` | server.go:154-157 | Starting from the default configuration, single-node bootstrap is on if and only if the peer list has exactly one entry. An empty peer list leaves it off. |

## Left out

- Raft construction, the MDB log/stable store, the snapshot store, the network transport, peer address resolution and the JSON peer store (server.go:114-153, 158-164). These are library calls whose behaviour is not visible here.
- TCP resolution and listening, and directory creation (server.go:21-44, 55-63). This is I/O. Note that server.go:61 creates `dataDir` a second time, not `mdbDir`.
- The leader-wait polling loop (server.go:166-178). It depends on wall-clock time and sleeping.
- The `serveFollowers` accept loop and the per-connection handlers (server.go:182-191). These are concurrency and network code.
- The leader mutex (server.go:240-241). Each dispatch is modelled as one atomic step instead.
- The log lines at server.go:245 and server.go:258. Only the registry's override warnings are modelled.
- The `Read`, `Close` and `Leader` wrappers (server.go:203-205, 271-273, 280-283). They only forward to the store and to Raft.
- `IsLeader` (server.go:208-210). It is the predicate `Node.IsLeader` over the role input and has no contract of its own.
- The stream multiplexer, the state machine's callback table and apply path, `newCommand`, `cb.cancel`, `connToLeader` and its wire format, and `bytesForCommand`. Their source is not part of this model, so they appear only as effects in the trace and as inputs.
- Forward.Dispatch: the source reads `Leader()` afresh up to five times in one call. The model observes the leader once per call, so it does not cover a leader change in the middle of a call.
- Forward.Dispatch: a `newConnToLeader` call that returns neither a handle nor an error is not modelled. On success the new handle is taken to be open, with the socket's remote address as an input (`Wrapped(remote)`). On failure, whether `newConnToLeader` itself closes the socket is not visible, because its source is not part of this model.
- Forward.WriteFailureKeepsHandle: requires that a freshly built handle's remote address is the dialled leader's. The remote address comes from the socket, which the model does not see.
- Node.Rsync: the result a callback eventually receives is an input (`delivered`). Blocking on the channel is not modelled.
- Node.ConfigureSingleNode: the Raft configuration is reduced to its single-node flag. The library default is taken to have that flag off.
