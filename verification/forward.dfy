/**
 The leader forwarder of a follower: `dispatchToLeader`. One call runs under
 the server's leader lock, so it is modelled as one atomic transition of the
 cached leader connection, driven by what the world answers during the call.
 */
module Forward {
  import opened Types

  /** Timeout, in seconds, of the dial to the leader's RPC stream layer. */
  const DialTimeoutSeconds: nat := 60

  datatype DialOutcome = Dialed | DialFailed

  /** Outcome of `newConnToLeader` on the socket just dialled. On success the
      new handle is open and reports the socket's remote address. On failure
      the call still returns a handle value (possibly none), and the server
      stores it. */
  datatype WrapOutcome = Wrapped(remote: Addr) | WrapFailed(returned: Option<Conn>, err: Error)

  datatype WriteOutcome = Written | WriteFailed(err: Error)

  /** Everything the collaborators answer during one dispatch: the node's own
      RPC address, the leader the consensus module reports, the dial, the
      connection wrapper, the forward write, and the callback `newCommand`
      would allocate next. */
  datatype Env = Env(
    localAddr: Addr,
    leader: Option<Addr>,
    dial: DialOutcome,
    wrap: WrapOutcome,
    write: WriteOutcome,
    nextCallback: Callback)

  /** Go's `(*commandCallback, error)` pair, or a nil-interface panic. */
  datatype Reply = Returns(cb: Option<Callback>, err: Option<Error>) | Panics

  datatype Step = Step(cache: Option<Conn>, reply: Reply, trace: seq<Effect>)

  /** The cache-reuse test: a cached handle exists, a leader is known, and the
      leader's address is the handle's remote address. */
  predicate Reusable(cache: Option<Conn>, leader: Option<Addr>) {
    cache.Some? && leader.Some? && leader.value == cache.value.remote
  }

  /** The cache after its handle (if any) has had its socket closed; the
      server keeps pointing at the same handle. */
  function CloseCached(cache: Option<Conn>): (r: Option<Conn>)
    ensures r.Some? <==> cache.Some?
    ensures cache.Some? ==> r.value.remote == cache.value.remote && !r.value.open
  {
    match cache
    case None => None
    case Some(c) => Some(c.(open := false))
  }

  /** Allocate a callback, write it on `conn`, and cancel it if the write fails. */
  function ForwardOn(conn: Conn, prefix: seq<Effect>, name: string, args: seq<Bytes>, env: Env): (s: Step)
    ensures s.cache == Some(conn)
    ensures |s.trace| >= |prefix| + 2 && s.trace[..|prefix|] == prefix
    ensures s.trace[|prefix|] == NewCommand(env.nextCallback)
    ensures s.trace[|prefix| + 1] == ForwardCommand(conn, env.nextCallback, name, args)
    ensures env.write.Written? ==> s.reply == Returns(Some(env.nextCallback), None) && |s.trace| == |prefix| + 2
    ensures env.write.WriteFailed? ==>
              && s.reply == Returns(None, Some(env.write.err))
              && s.trace == prefix + [NewCommand(env.nextCallback), ForwardCommand(conn, env.nextCallback, name, args), CancelCallback(env.nextCallback)]
    ensures Allocates(s.trace)
    ensures Dials(s.trace) <==> Dials(prefix)
    ensures Closes(s.trace) <==> Closes(prefix)
    ensures Cancels(s.trace) <==> Cancels(prefix) || env.write.WriteFailed?
    ensures OnlyCallback(prefix, env.nextCallback) ==> OnlyCallback(s.trace, env.nextCallback)
  {
    var cb := env.nextCallback;
    var sent := prefix + [NewCommand(cb), ForwardCommand(conn, cb, name, args)];
    match env.write
    case Written => Step(Some(conn), Returns(Some(cb), None), sent)
    case WriteFailed(err) =>
      var cancelled := sent + [CancelCallback(cb)];
      assert cancelled[|sent|].CancelCallback?;
      Step(Some(conn), Returns(None, Some(err)), cancelled)
  }

  /** The reconnect branch once a leader is known: close the old handle, dial
      the leader, wrap the new socket, and forward on the new handle. */
  function Reconnect(cache: Option<Conn>, leader: Addr, name: string, args: seq<Bytes>, env: Env): (s: Step)
    ensures s.reply.Returns? && (s.reply.cb.Some? <==> s.reply.err.None?)
    ensures Dials(s.trace)
    ensures Closes(s.trace) <==> cache.Some?
    ensures cache.Some? ==> s.trace[0] == CloseConn(cache.value)
    ensures var k := if cache.Some? then 1 else 0;
            |s.trace| > k && s.trace[k] == DialLeader(leader, DialTimeoutSeconds)
    ensures env.dial.DialFailed? ==>
              && s.reply == Returns(None, Some(CouldNotConnect(leader)))
              && s.cache == CloseCached(cache)
              && !Allocates(s.trace)
    ensures env.dial.Dialed? && env.wrap.WrapFailed? ==>
              && s.reply == Returns(None, Some(env.wrap.err))
              && s.cache == env.wrap.returned
              && !Allocates(s.trace)
    ensures Allocates(s.trace) <==> env.dial.Dialed? && env.wrap.Wrapped?
    ensures Allocates(s.trace) ==>
              && s.cache == Some(Conn(env.wrap.remote, true))
              && ForwardCommand(Conn(env.wrap.remote, true), env.nextCallback, name, args) in s.trace
    ensures Allocates(s.trace) && env.write.Written? ==>
              s.reply == Returns(Some(env.nextCallback), None) && !Cancels(s.trace)
    ensures Allocates(s.trace) && env.write.WriteFailed? ==>
              s.reply == Returns(None, Some(env.write.err)) && s.trace[|s.trace| - 1] == CancelCallback(env.nextCallback)
    ensures Cancels(s.trace) ==> Allocates(s.trace)
    ensures Allocates(s.trace) ==> NewCommand(env.nextCallback) in s.trace
    ensures OnlyCallback(s.trace, env.nextCallback)
  {
    var closing := if cache.Some? then [CloseConn(cache.value)] else [];
    var dialing := closing + [DialLeader(leader, DialTimeoutSeconds)];
    assert dialing[|closing|].DialLeader?;
    assert !Allocates(dialing) && !Cancels(dialing);
    assert cache.Some? ==> dialing[0].CloseConn?;
    assert cache.None? ==> dialing == [DialLeader(leader, DialTimeoutSeconds)];
    match env.dial
    case DialFailed =>
      Step(CloseCached(cache), Returns(None, Some(CouldNotConnect(leader))), dialing)
    case Dialed =>
      var wrapping := dialing + [WrapConn(env.localAddr)];
      assert wrapping[|closing|].DialLeader?;
      assert !Allocates(wrapping) && !Cancels(wrapping);
      assert cache.Some? ==> wrapping[0].CloseConn?;
      match env.wrap
      case WrapFailed(returned, err) => Step(returned, Returns(None, Some(err)), wrapping)
      case Wrapped(remote) => ForwardOn(Conn(remote, true), wrapping, name, args, env)
  }

  /** One call of `dispatchToLeader` on the cached handle `cache`. */
  function Dispatch(cache: Option<Conn>, name: string, args: seq<Bytes>, env: Env): (s: Step)
    // A cached handle is reused exactly when the reuse test passes; otherwise the
    // reconnect branch dials, or panics when no leader is known.
    ensures Dials(s.trace) <==> !Reusable(cache, env.leader) && env.leader.Some?
    ensures s.reply.Panics? <==> env.leader.None?
    ensures Reusable(cache, env.leader) ==> !Closes(s.trace) && s.cache == cache
    // The reconnect branch closes the old handle first, then dials the leader.
    ensures Closes(s.trace) <==> !Reusable(cache, env.leader) && cache.Some?
    ensures !Reusable(cache, env.leader) && cache.Some? ==> s.trace[0] == CloseConn(cache.value)
    ensures !Reusable(cache, env.leader) && env.leader.Some? ==>
              var k := if cache.Some? then 1 else 0;
              |s.trace| > k && s.trace[k] == DialLeader(env.leader.value, DialTimeoutSeconds)
    // With no leader known the old handle is closed; `DispatchTrace` shows that
    // nothing else happens.
    ensures env.leader.None? ==> s.cache == CloseCached(cache) && !Allocates(s.trace) && !Dials(s.trace)
    // A failed dial reports the leader it tried, allocates nothing, and leaves
    // the server pointing at the closed old handle.
    ensures !Reusable(cache, env.leader) && env.leader.Some? && env.dial.DialFailed? ==>
              && s.reply == Returns(None, Some(CouldNotConnect(env.leader.value)))
              && s.cache == CloseCached(cache)
              && !Allocates(s.trace)
    // A failed wrap stores whatever `newConnToLeader` returned and passes its error on.
    ensures !Reusable(cache, env.leader) && env.leader.Some? && env.dial.Dialed? && env.wrap.WrapFailed? ==>
              && s.reply == Returns(None, Some(env.wrap.err))
              && s.cache == env.wrap.returned
              && !Allocates(s.trace)
    // A callback is allocated only once a usable handle is in place, and it is
    // the handle the command is forwarded on and the one left in the cache.
    ensures Allocates(s.trace) <==>
              Reusable(cache, env.leader) || (env.leader.Some? && env.dial.Dialed? && env.wrap.Wrapped?)
    ensures Allocates(s.trace) ==>
              && s.cache.Some?
              && ForwardCommand(s.cache.value, env.nextCallback, name, args) in s.trace
              && (Reusable(cache, env.leader) ==> s.cache == cache)
              && (!Reusable(cache, env.leader) ==> s.cache == Some(Conn(env.wrap.remote, true)))
    // The allocated callback is returned when the write succeeds and cancelled
    // (and not returned) when it fails.
    ensures Allocates(s.trace) && env.write.Written? ==>
              s.reply == Returns(Some(env.nextCallback), None) && !Cancels(s.trace)
    ensures Allocates(s.trace) && env.write.WriteFailed? ==>
              s.reply == Returns(None, Some(env.write.err)) && s.trace[|s.trace| - 1] == CancelCallback(env.nextCallback)
    ensures Cancels(s.trace) ==> Allocates(s.trace) && s.reply.Returns? && s.reply.cb.None?
    // A Go-style reply is either a callback or an error, never both, never neither.
    ensures s.reply.Returns? ==> (s.reply.cb.Some? <==> s.reply.err.None?)
    // The cached handle is never dropped without having been closed.
    ensures cache.Some? && s.cache != cache ==> CloseConn(cache.value) in s.trace
    // The only callback touched is the one `newCommand` hands out, and nothing
    // is submitted to the consensus module.
    ensures Allocates(s.trace) ==> NewCommand(env.nextCallback) in s.trace
    ensures OnlyCallback(s.trace, env.nextCallback)
  {
    if Reusable(cache, env.leader) then
      ForwardOn(cache.value, [], name, args, env)
    else
      match env.leader
      case None => Step(CloseCached(cache), Panics, if cache.Some? then [CloseConn(cache.value)] else [])
      case Some(leader) => Reconnect(cache, leader, name, args, env)
  }

  /** The old cached handle is the only thing a dispatch ever closes. A socket
      dialled during the call is never closed by it; when `newConnToLeader`
      fails and returns no handle, that socket is neither cached nor closed by the dispatch. */
  lemma DispatchClosesOnlyCachedHandle(cache: Option<Conn>, name: string, args: seq<Bytes>, env: Env)
    ensures var s := Dispatch(cache, name, args, env);
            forall i :: 0 <= i < |s.trace| && s.trace[i].CloseConn? ==>
              cache.Some? && s.trace[i].conn == cache.value
    ensures !Reusable(cache, env.leader) && env.leader.Some? && env.dial.Dialed? && env.wrap.WrapFailed? && env.wrap.returned.None? ==>
              var s := Dispatch(cache, name, args, env);
              && s.cache.None?
              && s.trace == (if cache.Some? then [CloseConn(cache.value)] else []) +
                            [DialLeader(env.leader.value, DialTimeoutSeconds), WrapConn(env.localAddr)]
  {
  }

  /** The complete effect trace of each path through a dispatch: at most one
      callback is allocated, it is written once, and it is cancelled at most
      once; nothing else happens. */
  lemma DispatchTrace(cache: Option<Conn>, name: string, args: seq<Bytes>, env: Env)
    ensures var s := Dispatch(cache, name, args, env);
            var cb := env.nextCallback;
            var closing := if cache.Some? then [CloseConn(cache.value)] else [];
            var failing := if env.write.WriteFailed? then [CancelCallback(cb)] else [];
            && (Reusable(cache, env.leader) ==>
                  s.trace == [NewCommand(cb), ForwardCommand(cache.value, cb, name, args)] + failing)
            && (env.leader.None? ==> s.trace == closing)
            && (!Reusable(cache, env.leader) && env.leader.Some? ==>
                  var dialing := closing + [DialLeader(env.leader.value, DialTimeoutSeconds)];
                  && (env.dial.DialFailed? ==> s.trace == dialing)
                  && (env.dial.Dialed? && env.wrap.WrapFailed? ==> s.trace == dialing + [WrapConn(env.localAddr)])
                  && (env.dial.Dialed? && env.wrap.Wrapped? ==>
                        s.trace == dialing + [WrapConn(env.localAddr), NewCommand(cb),
                                              ForwardCommand(Conn(env.wrap.remote, true), cb, name, args)] + failing))
  {
  }

  /** The effect of repeated dispatches, one per answer in `envs`, each starting
      from the cache the previous one left. A panic ends the run. */
  datatype Run = Run(cache: Option<Conn>, trace: seq<Effect>, replies: seq<Reply>)

  function RunDispatches(cache: Option<Conn>, name: string, args: seq<Bytes>, envs: seq<Env>): (r: Run)
    decreases |envs|
  {
    if envs == [] then Run(cache, [], [])
    else
      var s := Dispatch(cache, name, args, envs[0]);
      if s.reply.Panics? then Run(s.cache, s.trace, [Panics])
      else
        var rest := RunDispatches(s.cache, name, args, envs[1..]);
        Run(rest.cache, s.trace + rest.trace, [s.reply] + rest.replies)
  }

  /** Every answer in `envs` reports `leader` as the current leader. */
  predicate LeaderStable(envs: seq<Env>, leader: Addr) {
    forall i :: 0 <= i < |envs| ==> envs[i].leader == Some(leader)
  }

  /** Every forward write in `t` goes out on handle `c`. */
  predicate ForwardsOnlyOn(t: seq<Effect>, c: Conn) {
    forall i :: 0 <= i < |t| && t[i].ForwardCommand? ==> t[i].conn == c
  }

  lemma ConcatKeepsNoDialsAndHandle(a: seq<Effect>, b: seq<Effect>, c: Conn)
    requires !Dials(a) && !Dials(b) && ForwardsOnlyOn(a, c) && ForwardsOnlyOn(b, c)
    ensures !Dials(a + b) && ForwardsOnlyOn(a + b, c)
  {
  }

  /** The reuse test looks only at addresses, never at whether the handle still
      works: once the cache holds a handle whose remote address is the leader's,
      every later dispatch that observes the same leader forwards on that very
      handle and never redials, whatever the earlier forward writes returned. */
  lemma {:induction false} StableLeaderNeverRedials(c: Conn, name: string, args: seq<Bytes>, envs: seq<Env>)
    requires LeaderStable(envs, c.remote)
    ensures RunDispatches(Some(c), name, args, envs).cache == Some(c)
    ensures !Dials(RunDispatches(Some(c), name, args, envs).trace)
    ensures ForwardsOnlyOn(RunDispatches(Some(c), name, args, envs).trace, c)
    ensures |RunDispatches(Some(c), name, args, envs).replies| == |envs|
    decreases |envs|
  {
    if envs != [] {
      var s := Dispatch(Some(c), name, args, envs[0]);
      assert Reusable(Some(c), envs[0].leader);
      assert s == ForwardOn(c, [], name, args, envs[0]);
      assert ForwardsOnlyOn(s.trace, c);
      StableLeaderNeverRedials(c, name, args, envs[1..]);
      var rest := RunDispatches(Some(c), name, args, envs[1..]);
      ConcatKeepsNoDialsAndHandle(s.trace, rest.trace, c);
    }
  }

  /** A failed redial leaves the closed old handle cached. If the consensus
      module then reports the old leader again, the closed handle passes the
      reuse test: no dial is made, and every later dispatch forwards on it. */
  lemma {:induction false} FailedRedialLeavesClosedHandleInUse(
    c: Conn, name: string, args: seq<Bytes>, first: Env, envs: seq<Env>)
    requires first.leader.Some? && first.leader.value != c.remote && first.dial.DialFailed?
    requires LeaderStable(envs, c.remote)
    ensures Dispatch(Some(c), name, args, first).cache == Some(c.(open := false))
    ensures var later := RunDispatches(Dispatch(Some(c), name, args, first).cache, name, args, envs);
            && later.cache == Some(c.(open := false))
            && !Dials(later.trace)
            && ForwardsOnlyOn(later.trace, c.(open := false))
  {
    var closed := c.(open := false);
    StableLeaderNeverRedials(closed, name, args, envs);
  }

  /** A failed forward write cancels the callback but keeps the handle: the
      next dispatch that observes the same leader reuses it without redialling,
      provided a freshly built handle carries the leader's address. */
  lemma WriteFailureKeepsHandle(cache: Option<Conn>, name: string, args: seq<Bytes>, first: Env, next: Env)
    requires Allocates(Dispatch(cache, name, args, first).trace) && first.write.WriteFailed?
    requires next.leader == first.leader
    requires !Reusable(cache, first.leader) ==> first.wrap.Wrapped? && Some(first.wrap.remote) == first.leader
    ensures var s := Dispatch(cache, name, args, first);
            && s.reply == Returns(None, Some(first.write.err))
            && Reusable(s.cache, next.leader)
            && !Dials(Dispatch(s.cache, name, args, next).trace)
  {
    var s := Dispatch(cache, name, args, first);
    if !Reusable(cache, first.leader) {
      assert s.cache == Some(Conn(first.wrap.remote, true));
    }
  }
}
