/**
 The single-user hub from backend to client: the watchers and their registry
 writes, the notifications, and the clients of `host:track-devices`, each step of
 which may interleave with any other. The policy is a fixed table.
 */
module HubView {
  import opened Registry
  import opened Policy
  import W = Watchers
  import Staleness
  import Tenant

  datatype Phase = Starting | Reading | Got(list: Snapshot) | Listening(body: string) | Left

  /** `pos` is the receiver's place in the broadcast channel. */
  datatype Client = Client(long: bool, phase: Phase, pos: nat)

  /** `owing` counts registry writes that changed the list and have not sent their notification yet. */
  datatype Hub = Hub(poller: W.Poller, sent: nat, owing: nat, clients: seq<Client>)

  datatype Act = Poll(act: W.Act) | SendNotice | Connect(long: bool) | Subscribe(i: nat) | ReadList(i: nat) | WriteBody(i: nat) | Receive(i: nat) | Leave(i: nat)

  predicate Enabled(h: Hub, act: Act) {
    match act
    case Poll(a) => W.Enabled(h.poller, a)
    case SendNotice => h.owing > 0
    case Connect(_) => true
    case Subscribe(i) => i < |h.clients| && h.clients[i].phase == Starting
    case ReadList(i) => i < |h.clients| && h.clients[i].phase == Reading
    case WriteBody(i) => i < |h.clients| && h.clients[i].phase.Got?
    case Receive(i) => i < |h.clients| && h.clients[i].phase.Listening? && h.clients[i].pos < h.sent
    case Leave(i) => i < |h.clients|
  }

  /** What a client is shown of a list. */
  function Body(policy: HubPolicy, list: Snapshot, long: bool): string {
    Format(FilterSnapshot(policy, list), long)
  }

  function With(h: Hub, i: nat, c: Client): Hub
    requires i < |h.clients|
  {
    h.(clients := h.clients[i := c])
  }

  function Step(h: Hub, policy: HubPolicy, act: Act): Hub
    requires Enabled(h, act)
  {
    match act
    case Poll(a) =>
      var p := W.Step(h.poller, a);
      h.(poller := p, owing := h.owing + (if p.registry != h.poller.registry then 1 else 0))
    case SendNotice => h.(sent := h.sent + 1, owing := h.owing - 1)
    case Connect(long) => h.(clients := h.clients + [Client(long, Starting, 0)])
    case Subscribe(i) => With(h, i, h.clients[i].(phase := Reading, pos := h.sent))
    case ReadList(i) => With(h, i, h.clients[i].(phase := Got(h.poller.registry)))
    case WriteBody(i) => With(h, i, h.clients[i].(phase := Listening(Body(policy, h.clients[i].phase.list, h.clients[i].long))))
    case Receive(i) => With(h, i, h.clients[i].(phase := Reading, pos := Tenant.NextPos(h.clients[i].pos, h.sent)))
    case Leave(i) => With(h, i, h.clients[i].(phase := Left))
  }

  predicate CanRun(h: Hub, policy: HubPolicy, acts: seq<Act>)
    decreases |acts|
  {
    |acts| == 0 || (Enabled(h, acts[0]) && CanRun(Step(h, policy, acts[0]), policy, acts[1..]))
  }

  function Run(h: Hub, policy: HubPolicy, acts: seq<Act>): Hub
    requires CanRun(h, policy, acts)
    decreases |acts|
  {
    if |acts| == 0 then h else Run(Step(h, policy, acts[0]), policy, acts[1..])
  }

  /** The watchers' part of a schedule. */
  function PollActs(acts: seq<Act>): seq<W.Act> {
    if |acts| == 0 then [] else (if acts[0].Poll? then [acts[0].act] else []) + PollActs(acts[1..])
  }

  // ---------- invariants ----------

  predicate Woken(h: Hub, c: Client) {
    c.pos < h.sent || h.owing > 0
  }

  ghost predicate UpToDate(h: Hub, policy: HubPolicy, c: Client) {
    match c.phase
    case Got(list) => list == h.poller.registry || Woken(h, c)
    case Listening(body) => body == Body(policy, h.poller.registry, c.long) || Woken(h, c)
    case _ => true
  }

  ghost predicate Clients(h: Hub, policy: HubPolicy) {
    forall i :: 0 <= i < |h.clients| ==> UpToDate(h, policy, h.clients[i]) && h.clients[i].pos <= h.sent
  }

  lemma StepKeepsClients(h: Hub, policy: HubPolicy, act: Act)
    requires Clients(h, policy) && Enabled(h, act)
    ensures Clients(Step(h, policy, act), policy)
  {
    var h' := Step(h, policy, act);
    forall i | 0 <= i < |h'.clients|
      ensures UpToDate(h', policy, h'.clients[i]) && h'.clients[i].pos <= h'.sent
    {
      if i < |h.clients| { assert UpToDate(h, policy, h.clients[i]) && h.clients[i].pos <= h.sent; }
    }
  }

  lemma {:induction false} RunKeepsClients(h: Hub, policy: HubPolicy, acts: seq<Act>)
    requires Clients(h, policy) && CanRun(h, policy, acts)
    ensures Clients(Run(h, policy, acts), policy)
    decreases |acts|
  {
    if |acts| > 0 {
      StepKeepsClients(h, policy, acts[0]);
      RunKeepsClients(Step(h, policy, acts[0]), policy, acts[1..]);
    }
  }

  /** Clients and notifications do not disturb the watchers. */
  lemma {:induction false} PollersRun(h: Hub, policy: HubPolicy, acts: seq<Act>)
    requires CanRun(h, policy, acts)
    ensures W.CanRun(h.poller, PollActs(acts)) && Run(h, policy, acts).poller == W.Run(h.poller, PollActs(acts))
    decreases |acts|
  {
    if |acts| > 0 {
      PollersRun(Step(h, policy, acts[0]), policy, acts[1..]);
      if acts[0].Poll? {
        assert PollActs(acts)[1..] == PollActs(acts[1..]);
      } else {
        assert PollActs(acts) == PollActs(acts[1..]);
      }
    }
  }

  /** How often the list on show changes in a run. */
  function Changes(h: Hub, policy: HubPolicy, acts: seq<Act>): nat
    requires CanRun(h, policy, acts)
    decreases |acts|
  {
    if |acts| == 0 then 0
    else
      var next := Step(h, policy, acts[0]);
      (if next.poller.registry != h.poller.registry then 1 else 0) + Changes(next, policy, acts[1..])
  }

  /** There is one notification, sent or owed, for each change of the list and for nothing else. */
  lemma {:induction false} NoticesCountChanges(h: Hub, policy: HubPolicy, acts: seq<Act>)
    requires CanRun(h, policy, acts)
    ensures Run(h, policy, acts).sent + Run(h, policy, acts).owing == h.sent + h.owing + Changes(h, policy, acts)
    decreases |acts|
  {
    if |acts| > 0 { NoticesCountChanges(Step(h, policy, acts[0]), policy, acts[1..]); }
  }

  /** A hub whose poller has just seeded and published, before any client. */
  ghost predicate Started(h: Hub) {
    W.Seeded(h.poller) && h.clients == []
  }

  // ---------- what holds in every run ----------

  /** A listening client was last sent the registry's list under the policy, or a notification or lag is queued for it, or one is owed. */
  lemma NoLostUpdate(h: Hub, policy: HubPolicy, acts: seq<Act>, i: nat)
    requires Started(h) && CanRun(h, policy, acts)
    ensures var q := Run(h, policy, acts);
            i < |q.clients| && q.clients[i].phase.Listening? ==>
              var c := q.clients[i];
              c.phase.body == Format(FilterSnapshot(policy, q.poller.registry), c.long) || c.pos < q.sent || q.owing > 0
  {
    RunKeepsClients(h, policy, acts);
  }

  /** Nothing is under way: no watcher between receiving and writing, no notification owed or queued for the client. */
  predicate Quiet(h: Hub, c: Client) {
    Staleness.Quiet(h.poller) && h.owing == 0 && c.pos == h.sent && c.phase.Listening?
  }

  /**
   From backend to client: when nothing is under way, a client shows the printed,
   filtered merge of the list each backend sent last if and only if the copy written
   last is the copy taken last, or one that looks the same to this client.
   */
  lemma QuietClientExactly(h: Hub, policy: HubPolicy, acts: seq<Act>, i: nat)
    requires Started(h) && CanRun(h, policy, acts)
    requires var q := Run(h, policy, acts); i < |q.clients| && Quiet(q, q.clients[i])
    ensures var q := Run(h, policy, acts); var c, polls := q.clients[i], PollActs(acts);
            var written, taken := Staleness.LastWritten(polls), Staleness.LastTaken(polls);
            && W.Complete(q.poller.order, q.poller.bodies) && written <= taken && |q.poller.taken| == taken + 1
            && (c.phase.body == Format(FilterSnapshot(policy, Merge(W.InOrder(q.poller.order, q.poller.bodies))), c.long) <==>
                  || written == taken
                  || Format(FilterSnapshot(policy, Merge(q.poller.taken[written])), c.long)
                     == Format(FilterSnapshot(policy, Merge(q.poller.taken[taken])), c.long))
  {
    var q := Run(h, policy, acts);
    NoLostUpdate(h, policy, acts, i);
    PollersRun(h, policy, acts);
    Staleness.QuietShowsLastWritten(h.poller, PollActs(acts));
  }

  /** When registry writes land in copy order, it does. */
  lemma QuietClientShowsBackends(h: Hub, policy: HubPolicy, acts: seq<Act>, i: nat)
    requires Started(h) && CanRun(h, policy, acts) && Staleness.InCopyOrder(PollActs(acts))
    requires var q := Run(h, policy, acts); i < |q.clients| && Quiet(q, q.clients[i])
    ensures var q := Run(h, policy, acts);
            && W.Complete(q.poller.order, q.poller.bodies)
            && q.clients[i].phase.body
               == Format(FilterSnapshot(policy, Merge(W.InOrder(q.poller.order, q.poller.bodies))), q.clients[i].long)
  {
    QuietClientExactly(h, policy, acts, i);
    PollersRun(h, policy, acts);
    Staleness.QuietRegistryIsCurrent(h.poller, PollActs(acts));
  }
}
