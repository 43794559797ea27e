/**
 The maps the two programs keep per connection, updated in place: `AgentConn` of
 the daemon and the `streams` table of the agent. Each method is one handler; its
 contract is the step of `Streams` on the endpoint of every stream id at once, so
 no handler touches another stream.
 */
module MuxMaps {
  import opened Wrappers
  import opened Bytes
  import opened Streams

  /** The daemon's per-connection state (stream_tx, open_waiters and the channels behind them). */
  class AgentConn {
    var streamTx: set<nat>
    var openWaiters: set<nat>
    var channels: map<nat, seq<Data>>
    var outcomes: map<nat, bool>
    var resolved: map<nat, nat>
    var receiversGone: set<nat> // streams whose forward_private has returned

    constructor ()
      ensures streamTx == {} && openWaiters == {} && channels == map[] && outcomes == map[]
      ensures resolved == map[] && receiversGone == {}
    {
      streamTx, openWaiters, channels, outcomes, resolved, receiversGone := {}, {}, map[], map[], map[], {};
    }

    /** The endpoint of stream `id`, given the local variables of its task. */
    function Endpoint(id: nat, task: Daemon): Daemon
      reads this
    {
      task.(waiter := id in openWaiters, tx := id in streamTx,
            queue := if id in channels then channels[id] else [],
            outcome := if id in outcomes then Some(outcomes[id]) else None,
            resolutions := if id in resolved then resolved[id] else 0)
    }

    /** The task is one this object may be serving: it has returned exactly when its receiver is gone. */
    predicate Serves(id: nat, task: Daemon)
      reads this
    {
      task.pc == Gone <==> id in receiversGone
    }

    method Resolve(id: nat, ok: bool)
      modifies this`openWaiters, this`outcomes, this`resolved
      ensures openWaiters == old(openWaiters) - {id}
      ensures id !in old(openWaiters) ==> outcomes == old(outcomes) && resolved == old(resolved)
      ensures id in old(openWaiters) ==>
                && outcomes == old(outcomes)[id := ok]
                && resolved == old(resolved)[id := (if id in old(resolved) then old(resolved)[id] else 0) + 1]
    {
      if id in openWaiters {
        openWaiters := openWaiters - {id};
        outcomes := outcomes[id := ok];
        resolved := resolved[id := (if id in resolved then resolved[id] else 0) + 1];
      }
    }

    /** One iteration of `agent_read_loop` on a frame that names a stream. */
    method HandleAgentFrame(id: nat, m: Msg)
      modifies this
      ensures receiversGone == old(receiversGone)
      ensures forall i: nat, task: Daemon :: Serves(i, task) ==>
                Endpoint(i, task) == (if i == id then DaemonReceive(old(Endpoint(i, task)), m) else old(Endpoint(i, task)))
      ensures m.StreamData? && id in streamTx && id !in receiversGone ==>
                id in channels && channels[id] == (if id in old(channels) then old(channels)[id] else []) + [m.data]
      ensures m.StreamClose? ==> streamTx == old(streamTx) - {id}
      ensures (m.StreamClose? || m.OpenResult?) && id in old(openWaiters) ==>
                id !in openWaiters && outcomes == old(outcomes)[id := m.OpenResult? && m.ok]
    {
      match m {
        case OpenResult(ok) =>
          Resolve(id, ok);
        case StreamData(data) =>
          if id in streamTx && id !in receiversGone {
            channels := channels[id := (if id in channels then channels[id] else []) + [data]];
          }
        case StreamClose =>
          streamTx := streamTx - {id};
          Resolve(id, false);
        case Open =>
      }
    }

    /** The two inserts at the start of `forward_private`, for an id never used before. */
    method RegisterStream(id: nat)
      requires id !in channels && id !in outcomes && id !in resolved
      modifies this`streamTx, this`openWaiters
      ensures Endpoint(id, NO_DAEMON.(pc := Registered)) == DaemonStep(NO_DAEMON, Register).0
      ensures forall i: nat, task: Daemon :: i != id ==> Endpoint(i, task) == old(Endpoint(i, task))
    {
      streamTx := streamTx + {id};
      openWaiters := openWaiters + {id};
    }

    /** The clean-up after a failed or expired open: both entries go, the task returns. */
    method AbandonOpen(id: nat, ghost task: Daemon, ghost act: DaemonAct)
      requires act == OpenWriteFails || act == Timeout
      requires DaemonEnabled(Endpoint(id, task), act)
      modifies this`openWaiters, this`streamTx, this`receiversGone
      ensures var d := DaemonStep(old(Endpoint(id, task)), act).0; Endpoint(id, d) == d && Serves(id, d)
      ensures forall i: nat, t: Daemon :: i != id ==> Endpoint(i, t) == old(Endpoint(i, t)) && (Serves(i, t) <==> old(Serves(i, t)))
    {
      openWaiters := openWaiters - {id};
      streamTx := streamTx - {id};
      receiversGone := receiversGone + {id};
    }
  }

  /** The agent's `streams` table. */
  class AgentStreams {
    var senders: set<nat>
    var channels: map<nat, seq<Data>>
    var receiversGone: set<nat>

    constructor ()
      ensures senders == {} && channels == map[] && receiversGone == {}
    {
      senders, channels, receiversGone := {}, map[], {};
    }

    function Endpoint(id: nat, task: Agent): Agent
      reads this
    {
      task.(tx := id in senders, queue := if id in channels then channels[id] else [])
    }

    predicate Serves(id: nat, task: Agent)
      reads this
    {
      task.pc == Finished <==> id in receiversGone
    }

    /** `handle_daemon_message` on the frames of an open stream; an open is handled by `open_private_stream`. */
    method HandleDaemonFrame(id: nat, m: Msg)
      requires m.StreamData? || m.StreamClose? || m.OpenResult?
      modifies this`senders, this`channels
      ensures forall i: nat, task: Agent :: Serves(i, task) ==>
                Endpoint(i, task) == (if i == id then AgentReceive(old(Endpoint(i, task)), m) else old(Endpoint(i, task)))
      ensures m.StreamData? && id in senders && id !in receiversGone ==>
                id in channels && channels[id] == (if id in old(channels) then old(channels)[id] else []) + [m.data]
      ensures senders == if m.StreamClose? then old(senders) - {id} else old(senders)
    {
      match m {
        case StreamData(data) =>
          if id in senders && id !in receiversGone {
            channels := channels[id := (if id in channels then channels[id] else []) + [data]];
          }
        case StreamClose =>
          senders := senders - {id};
        case OpenResult(_) =>
      }
    }

    /** The insert that makes a stream reachable once its open was answered. */
    method InsertStream(id: nat, ghost task: Agent)
      requires task.pc == Inserting
      modifies this`senders
      ensures var a := AgentStep(old(Endpoint(id, task)), InsertSender).0; Endpoint(id, a) == a
      ensures forall i: nat, t: Agent :: i != id ==> Endpoint(i, t) == old(Endpoint(i, t))
    {
      senders := senders + {id};
    }

    /** The removal at the end of the copy task. */
    method RemoveStream(id: nat, ghost task: Agent)
      requires task.pc == Stopping
      modifies this`senders
      ensures var a := AgentStep(old(Endpoint(id, task)), RemoveSender).0; Endpoint(id, a) == a
      ensures forall i: nat, t: Agent :: i != id ==> Endpoint(i, t) == old(Endpoint(i, t))
    {
      senders := senders - {id};
    }
  }
}
