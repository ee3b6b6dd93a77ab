/**
 The node façade: leadership test, peer removal, command submission with its
 fallback to forwarding, the `Rsync` barrier, and the one consensus setting
 the node derives from its peer list.
 */
module Node {
  import opened Types
  import Forward

  /** Timeout, in seconds, handed to the consensus module with each entry. */
  const CommandTimeoutSeconds: nat := 60

  /** The consensus module's reported role. */
  datatype Role = Leader | Follower | Candidate | Shutdown

  /** What a node's operations read and write: the role the consensus module
      reports, and the cached connection to the leader. */
  datatype Server = Server(role: Role, cache: Option<Conn>)

  predicate IsLeader(s: Server) {
    s.role == Leader
  }

  /** The channel `Command` hands back: a registered callback's result channel,
      or a buffered channel built on the spot with its contents. */
  datatype Chan = CallbackChan(cb: Callback) | Buffered(items: seq<Result>, capacity: nat)

  datatype CommandReply = Channel(ch: Chan) | Panicked

  datatype CommandStep = CommandStep(cache: Option<Conn>, reply: CommandReply, trace: seq<Effect>)

  /** `Command(name, args)`. On a leader the callback is `env.nextCallback`,
      the one `newCommand` allocates; otherwise `env` drives the dispatch. */
  function Command(s: Server, name: string, args: seq<Bytes>, env: Forward.Env): (r: CommandStep)
    // Leader: allocate, submit with the command timeout, return the callback's
    // channel; whatever the consensus module later says about the entry is not
    // consulted, and the leader-connection cache is not touched.
    ensures IsLeader(s) ==>
              && r.reply == Channel(CallbackChan(env.nextCallback))
              && r.trace == [NewCommand(env.nextCallback), ApplyEntry(env.nextCallback, name, args, CommandTimeoutSeconds)]
              && r.cache == s.cache
    // Not leader: the dispatch's effects and cache are the command's, and the
    // guarded cancel after a failed dispatch never fires.
    ensures !IsLeader(s) ==>
              var d := Forward.Dispatch(s.cache, name, args, env);
              && r.cache == d.cache
              && r.trace == d.trace
              && (d.reply.Returns? && d.reply.err.Some? ==>
                    r.reply == Channel(Buffered([Result(None, d.reply.err)], 1)))
              && (d.reply.Returns? && d.reply.err.None? ==>
                    r.reply == Channel(CallbackChan(d.reply.cb.value)))
    ensures r.reply.Panicked? <==> !IsLeader(s) && env.leader.None?
    // A prefilled channel holds exactly one result: no value, and an error.
    ensures r.reply.Channel? && r.reply.ch.Buffered? ==>
              && |r.reply.ch.items| == 1 == r.reply.ch.capacity
              && r.reply.ch.items[0].value.None?
              && r.reply.ch.items[0].err.Some?
    // Every callback allocated is either handed to the caller or cancelled,
    // never both, and a handed-out callback is the one that was allocated.
    ensures Allocates(r.trace) ==>
              (r.reply == Channel(CallbackChan(env.nextCallback)) <==> !Cancels(r.trace))
    ensures r.reply.Channel? && r.reply.ch.CallbackChan? ==>
              r.reply.ch.cb == env.nextCallback && NewCommand(env.nextCallback) in r.trace
  {
    if IsLeader(s) then
      var cb := env.nextCallback;
      CommandStep(s.cache, Channel(CallbackChan(cb)),
                  [NewCommand(cb), ApplyEntry(cb, name, args, CommandTimeoutSeconds)])
    else
      var d := Forward.Dispatch(s.cache, name, args, env);
      match d.reply
      case Panics => CommandStep(d.cache, Panicked, d.trace)
      case Returns(cb, err) =>
        if err.Some? then
          var cancel := match cb case Some(c) => [CancelCallback(c)] case None => [];
          CommandStep(d.cache, Channel(Buffered([Result(None, err)], 1)), d.trace + cancel)
        else if cb.Some? then
          CommandStep(d.cache, Channel(CallbackChan(cb.value)), d.trace)
        else
          CommandStep(d.cache, Panicked, d.trace)
  }

  datatype RsyncReply = Synced(err: Option<Error>) | RsyncPanicked

  datatype RsyncStep = RsyncStep(cache: Option<Conn>, reply: RsyncReply, trace: seq<Effect>)

  /** The name of the no-op command `Rsync` pushes through the log. */
  const NoopCommand: string := "Noop"

  /** `Rsync()`: run a no-op command and wait for its result. `delivered` is
      the result the state machine eventually puts on a callback's channel. */
  function Rsync(s: Server, env: Forward.Env, delivered: Result): (r: RsyncStep)
    ensures r.trace == Command(s, NoopCommand, [], env).trace
    ensures r.cache == Command(s, NoopCommand, [], env).cache
    ensures IsLeader(s) ==>
              && r.reply == Synced(delivered.err)
              && ApplyEntry(env.nextCallback, NoopCommand, [], CommandTimeoutSeconds) in r.trace
    // A follower whose dispatch fails returns the dispatch error at once; one
    // whose dispatch succeeds waits for the forwarded no-op's own result.
    ensures !IsLeader(s) ==>
              var d := Forward.Dispatch(s.cache, NoopCommand, [], env).reply;
              && (d.Returns? && d.err.Some? ==> r.reply == Synced(d.err))
              && (d.Returns? && d.err.None? ==> r.reply == Synced(delivered.err))
    ensures r.reply.RsyncPanicked? <==> !IsLeader(s) && env.leader.None?
  {
    var c := Command(s, NoopCommand, [], env);
    match c.reply
    case Panicked => RsyncStep(c.cache, RsyncPanicked, c.trace)
    case Channel(ch) =>
      match ch
      case CallbackChan(_) => RsyncStep(c.cache, Synced(delivered.err), c.trace)
      case Buffered(items, _) => RsyncStep(c.cache, Synced(items[0].err), c.trace)
  }

  datatype RemoveStep = RemoveStep(err: Option<Error>, trace: seq<Effect>)

  /** `RemovePeer(peer)`: only a leader asks the consensus module for the
      membership change; `outcome` is what that request's future reports. */
  function RemovePeer(s: Server, peer: Addr, outcome: Option<Error>): (r: RemoveStep)
    ensures !IsLeader(s) ==> r.err.None? && r.trace == []
    ensures IsLeader(s) ==> r.err == outcome && r.trace == [RemovePeerCall(peer)]
  {
    if IsLeader(s) then RemoveStep(outcome, [RemovePeerCall(peer)])
    else RemoveStep(None, [])
  }

  /** The part of the consensus configuration the node sets itself. */
  datatype RaftConfig = RaftConfig(enableSingleNode: bool)

  /** The library's default configuration, single-node bootstrap off. */
  const DefaultConfig: RaftConfig := RaftConfig(false)

  /** The node switches single-node bootstrap on for a one-address peer list
      and leaves the configuration it was given untouched otherwise. */
  function ConfigureSingleNode(peers: seq<Addr>, base: RaftConfig): (c: RaftConfig)
    ensures |peers| == 1 ==> c.enableSingleNode
    ensures |peers| != 1 ==> c == base
  {
    if |peers| == 1 then base.(enableSingleNode := true) else base
  }

  /** Starting from the default configuration, single-node bootstrap is on
      exactly when the peer list has one entry; in particular an empty peer
      list does not make the node a sole leader. */
  lemma SingleNodeExactlyWhenOnePeer(peers: seq<Addr>)
    ensures ConfigureSingleNode(peers, DefaultConfig).enableSingleNode <==> |peers| == 1
    ensures peers == [] ==> !ConfigureSingleNode(peers, DefaultConfig).enableSingleNode
  {
  }
}
