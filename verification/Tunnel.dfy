/**
 The scrcpy tunnel of a remote device: a local listener whose accept loop starts
 one handshake task per connection, each waiting for the one before it, and which
 drains its backlog when it is stopped.
 */
module Tunnel {
  import opened Wrappers
  import opened Users

  type Client = nat
  type Port = nat

  // ---------- one listener ----------

  datatype TaskState = Waiting | Handshaking | Done

  /** `waitsFor` is the task whose one-shot this task awaits first. */
  datatype Task = Task(client: Client, waitsFor: Option<nat>, state: TaskState)

  /** `Ending`: the loop is over, the listening socket not yet dropped. */
  datatype LoopState = Accepting | Draining | Ending | Closed

  datatype Listener = Listener(
    owner: Option<Uid>,        // whose connections are let through; everybody's if nobody's
    loop: LoopState,
    stopped: bool,             // the stop signal was sent
    acceptFailed: bool,        // the loop ended because accept returned an error
    backlog: seq<Client>,      // connected, not yet accepted
    accepted: seq<Client>,     // everything accept returned, in order
    peers: seq<Option<Uid>>,   // of these, what the lookup of their user answered
    tasks: seq<Task>,          // the handshakes started, in order
    previous: Option<nat>,     // the local variable of the loop: the last task's one-shot
    opens: seq<Client>,        // calls of open(), in order
    arrived: seq<Client>)      // everything that ever connected, in order

  function Listening(owner: Option<Uid>): Listener {
    Listener(owner, Accepting, false, false, [], [], [], [], None, [], [])
  }

  /** The uid check on an accepted connection. */
  predicate Allowed(owner: Option<Uid>, peer: Option<Uid>) {
    owner.Some? ==> peer == owner
  }

  datatype Act =
    | Arrive(client: Client)
    | SendStop
    | SeeStop              // the biased select takes the stop branch
    | Accept(peer: Option<Uid>) // of the head of the backlog; `peer` is what the lookup answers
    | AcceptError
    | SeeEmpty             // draining, and a poll found nothing pending
    | Close                // the socket is dropped
    | Begin(task: nat)     // the awaited one-shot fired or there was none: open() is called
    | End(task: nat)       // handshake succeeded, failed or timed out: its own one-shot fires

  predicate Enabled(l: Listener, act: Act) {
    match act
    case Arrive(_) => l.loop != Closed
    case SendStop => !l.stopped
    case SeeStop => l.loop == Accepting && l.stopped
    case Accept(_) => l.backlog != [] && (l.loop == Draining || (l.loop == Accepting && !l.stopped))
    case AcceptError => l.loop == Draining || (l.loop == Accepting && !l.stopped)
    case SeeEmpty => l.loop == Draining && l.backlog == []
    case Close => l.loop == Ending
    case Begin(i) => i < |l.tasks| && l.tasks[i].state == Waiting &&
      (l.tasks[i].waitsFor.Some? ==> l.tasks[i].waitsFor.value < |l.tasks| && l.tasks[l.tasks[i].waitsFor.value].state == Done)
    case End(i) => i < |l.tasks| && l.tasks[i].state == Handshaking
  }

  /** One iteration of the accept loop on the connection at the head of the backlog. */
  function AcceptOne(l: Listener, peer: Option<Uid>): Listener
    requires l.backlog != []
  {
    var l' := l.(backlog := l.backlog[1..], accepted := l.accepted + [l.backlog[0]], peers := l.peers + [peer]);
    if Allowed(l.owner, peer) then
      l'.(tasks := l.tasks + [Task(l.backlog[0], l.previous, Waiting)], previous := Some(|l.tasks|))
    else l'
  }

  function Step(l: Listener, act: Act): Listener
    requires Enabled(l, act)
  {
    match act
    case Arrive(c) => l.(backlog := l.backlog + [c], arrived := l.arrived + [c])
    case SendStop => l.(stopped := true)
    case SeeStop => l.(loop := Draining)
    case Accept(peer) => AcceptOne(l, peer)
    case AcceptError => l.(loop := Ending, acceptFailed := true)
    case SeeEmpty => l.(loop := Ending)
    case Close => l.(loop := Closed)
    case Begin(i) =>
      l.(tasks := l.tasks[i := l.tasks[i].(state := Handshaking)], opens := l.opens + [l.tasks[i].client])
    case End(i) => l.(tasks := l.tasks[i := l.tasks[i].(state := Done)])
  }

  predicate CanRun(l: Listener, acts: seq<Act>)
    decreases |acts|
  {
    |acts| == 0 || (Enabled(l, acts[0]) && CanRun(Step(l, acts[0]), acts[1..]))
  }

  function Run(l: Listener, acts: seq<Act>): Listener
    requires CanRun(l, acts)
    decreases |acts|
  {
    if |acts| == 0 then l else Run(Step(l, acts[0]), acts[1..])
  }

  function Clients(tasks: seq<Task>): seq<Client> {
    seq(|tasks|, i requires 0 <= i < |tasks| => tasks[i].client)
  }

  /** The clients whose user the owner lets through: all of them if there is no owner, else the owner's own. */
  function Admitted(clients: seq<Client>, peers: seq<Option<Uid>>, owner: Option<Uid>): seq<Client>
    requires |clients| == |peers|
  {
    if |clients| == 0 then []
    else
      var n := |clients| - 1;
      Admitted(clients[..n], peers[..n], owner) + (if Allowed(owner, peers[n]) then [clients[n]] else [])
  }

  lemma AdmittedAppend(clients: seq<Client>, peers: seq<Option<Uid>>, owner: Option<Uid>, c: Client, p: Option<Uid>)
    requires |clients| == |peers|
    ensures Admitted(clients + [c], peers + [p], owner) == Admitted(clients, peers, owner) + (if Allowed(owner, p) then [c] else [])
  {
    assert (clients + [c])[..|clients|] == clients && (peers + [p])[..|clients|] == peers;
  }

  lemma {:induction false} AdmittedConcat(c: seq<Client>, p: seq<Option<Uid>>, c': seq<Client>, p': seq<Option<Uid>>, owner: Option<Uid>)
    requires |c| == |p| && |c'| == |p'|
    ensures Admitted(c + c', p + p', owner) == Admitted(c, p, owner) + Admitted(c', p', owner)
    decreases |c'|
  {
    if |c'| == 0 {
      assert c + c' == c && p + p' == p;
    } else {
      var n := |c'| - 1;
      AdmittedConcat(c, p, c'[..n], p'[..n], owner);
      assert (c + c')[..|c| + n] == c + c'[..n] && (p + p')[..|c| + n] == p + p'[..n];
    }
  }

  /** How many of the first `i` peers are let through. */
  function LetThrough(peers: seq<Option<Uid>>, owner: Option<Uid>, i: nat): nat
    requires i <= |peers|
  {
    if i == 0 then 0 else LetThrough(peers, owner, i - 1) + (if owner == None || peers[i - 1] == owner then 1 else 0)
  }

  lemma {:induction false} LetThroughPrefix(peers: seq<Option<Uid>>, owner: Option<Uid>, n: nat, i: nat)
    requires i <= n <= |peers|
    ensures LetThrough(peers[..n], owner, i) == LetThrough(peers, owner, i)
  {
    if i > 0 { LetThroughPrefix(peers, owner, n, i - 1); }
  }

  /** Client `i` is admitted exactly when there is no owner or its user is the owner, at the place its rank among those says. */
  lemma {:induction false} AdmittedAt(clients: seq<Client>, peers: seq<Option<Uid>>, owner: Option<Uid>, i: nat)
    requires |clients| == |peers| && i < |clients|
    ensures |Admitted(clients, peers, owner)| == LetThrough(peers, owner, |peers|)
    ensures owner == None || peers[i] == owner ==>
              var k := LetThrough(peers, owner, i);
              k < |Admitted(clients, peers, owner)| && Admitted(clients, peers, owner)[k] == clients[i]
    decreases |clients|
  {
    var n := |clients| - 1;
    LetThroughPrefix(peers, owner, n, n);
    if n > 0 { AdmittedAt(clients[..n], peers[..n], owner, if i < n then i else 0); }
    if i < n { LetThroughPrefix(peers, owner, n, i); }
  }

  /** How many tasks have called open(): the finished ones and at most one more. */
  ghost predicate Chain(l: Listener) {
    && (forall i :: 0 <= i < |l.tasks| ==> l.tasks[i].waitsFor == if i == 0 then None else Some(i - 1))
    && l.previous == (if l.tasks == [] then None else Some(|l.tasks| - 1))
    && (forall i, j :: 0 <= i < j < |l.tasks| && l.tasks[j].state != Waiting ==> l.tasks[i].state == Done)
    && |l.opens| <= |l.tasks|
    && (forall i :: 0 <= i < |l.tasks| ==> (l.tasks[i].state != Waiting <==> i < |l.opens|))
    && l.opens == Clients(l.tasks)[..|l.opens|]
  }

  /** One task per admitted connection, in accept order. */
  ghost predicate TasksFollowAccepts(l: Listener) {
    |l.peers| == |l.accepted| && Clients(l.tasks) == Admitted(l.accepted, l.peers, l.owner)
  }

  lemma StepKeepsTasks(l: Listener, act: Act)
    requires TasksFollowAccepts(l) && Enabled(l, act)
    ensures TasksFollowAccepts(Step(l, act))
  {
    var l' := Step(l, act);
    match act
    case Accept(peer) =>
      AdmittedAppend(l.accepted, l.peers, l.owner, l.backlog[0], peer);
      if Allowed(l.owner, peer) { assert Clients(l'.tasks) == Clients(l.tasks) + [l.backlog[0]]; }
    case Begin(i) => assert Clients(l'.tasks) == Clients(l.tasks);
    case End(i) => assert Clients(l'.tasks) == Clients(l.tasks);
    case _ =>
  }

  /** Has the loop polled for the last time? */
  predicate Over(l: Listener) {
    l.loop == Ending || l.loop == Closed
  }

  ghost predicate Drain(l: Listener) {
    && l.arrived == l.accepted + l.backlog
    && (l.loop == Draining ==> l.stopped)
    && (Over(l) && !l.acceptFailed ==> l.stopped)
    && (!Over(l) ==> !l.acceptFailed)
  }

  lemma AcceptKeepsChain(l: Listener, peer: Option<Uid>)
    requires Chain(l) && l.backlog != []
    ensures Chain(AcceptOne(l, peer))
  {
    var l' := AcceptOne(l, peer);
    if Allowed(l.owner, peer) { assert Clients(l'.tasks)[..|l.opens|] == Clients(l.tasks)[..|l.opens|]; }
  }

  /** The task that may begin is the first that has not. */
  lemma BeginIsNext(l: Listener, i: nat)
    requires Chain(l) && Enabled(l, Begin(i))
    ensures i == |l.opens|
  {
    assert i > 0 ==> l.tasks[i - 1].state == Done && i - 1 < |l.opens|;
  }

  lemma BeginKeepsChain(l: Listener, i: nat)
    requires Chain(l) && Enabled(l, Begin(i))
    ensures Chain(Step(l, Begin(i)))
  {
    BeginIsNext(l, i);
    var l' := Step(l, Begin(i));
    assert Clients(l'.tasks) == Clients(l.tasks);
    assert Clients(l.tasks)[..i + 1] == Clients(l.tasks)[..i] + [l.tasks[i].client];
    assert i > 0 ==> l.tasks[i - 1].state == Done;
  }

  lemma EndKeepsChain(l: Listener, i: nat)
    requires Chain(l) && Enabled(l, End(i))
    ensures Chain(Step(l, End(i)))
  {
    assert Clients(Step(l, End(i)).tasks) == Clients(l.tasks);
  }

  lemma StepKeepsChain(l: Listener, act: Act)
    requires Chain(l) && Enabled(l, act)
    ensures Chain(Step(l, act))
  {
    match act
    case Accept(peer) => AcceptKeepsChain(l, peer);
    case Begin(i) => BeginKeepsChain(l, i);
    case End(i) => EndKeepsChain(l, i);
    case _ =>
  }

  /** A task before one that has begun is over. */
  lemma EarlierIsDone(l: Listener, i: nat)
    requires Chain(l) && i + 1 < |l.opens|
    ensures l.tasks[i].state == Done
  {
    assert l.tasks[i + 1].state != Waiting;
  }

  lemma StepKeepsDrain(l: Listener, act: Act)
    requires Drain(l) && Enabled(l, act)
    ensures Drain(Step(l, act))
  {
  }

  lemma {:induction false} RunKeepsInvariants(l: Listener, acts: seq<Act>)
    requires Chain(l) && Drain(l) && TasksFollowAccepts(l) && CanRun(l, acts)
    ensures Chain(Run(l, acts)) && Drain(Run(l, acts)) && TasksFollowAccepts(Run(l, acts))
    ensures Run(l, acts).owner == l.owner
    decreases |acts|
  {
    if |acts| > 0 {
      StepKeepsChain(l, acts[0]);
      StepKeepsDrain(l, acts[0]);
      StepKeepsTasks(l, acts[0]);
      RunKeepsInvariants(Step(l, acts[0]), acts[1..]);
    }
  }

  /**
   In every schedule at most one handshake is in progress, and open() is called
   for the admitted connections - the owner's own, if there is one - in exactly the
   order they were accepted.
   */
  lemma HandshakesAreSerial(owner: Option<Uid>, acts: seq<Act>)
    requires CanRun(Listening(owner), acts)
    ensures var l := Run(Listening(owner), acts);
            && (forall i, j :: 0 <= i < |l.tasks| && 0 <= j < |l.tasks| && l.tasks[i].state == Handshaking && l.tasks[j].state == Handshaking ==> i == j)
            && |l.peers| == |l.accepted| && l.opens <= Clients(l.tasks) == Admitted(l.accepted, l.peers, owner)
            && (forall i :: 0 <= i < |l.tasks| && l.tasks[i].state == Handshaking ==> i == |l.opens| - 1)
  {
    RunKeepsInvariants(Listening(owner), acts);
    var l := Run(Listening(owner), acts);
    forall i | 0 <= i < |l.tasks| && l.tasks[i].state == Handshaking
      ensures i == |l.opens| - 1
    {
      if i + 1 < |l.opens| { EarlierIsDone(l, i); }
    }
  }

  /** How many connect after the last poll of a schedule. */
  function LateArrivals(l: Listener, acts: seq<Act>): nat
    requires CanRun(l, acts)
    decreases |acts|
  {
    if |acts| == 0 then 0
    else (if Over(l) && acts[0].Arrive? then 1 else 0) + LateArrivals(Step(l, acts[0]), acts[1..])
  }

  /** What had arrived when the stop was taken, while it has not been: everything so far. */
  function ArrivedAtStop(l: Listener, acts: seq<Act>): seq<Client>
    requires CanRun(l, acts)
    decreases |acts|
  {
    if |acts| == 0 || acts[0].SeeStop? then l.arrived else ArrivedAtStop(Step(l, acts[0]), acts[1..])
  }

  /** What had arrived by the last poll. */
  function ArrivedAtLastPoll(l: Listener, acts: seq<Act>): seq<Client>
    requires CanRun(l, acts)
    decreases |acts|
  {
    if |acts| == 0 || Over(l) then l.arrived else ArrivedAtLastPoll(Step(l, acts[0]), acts[1..])
  }

  /** After the last poll nothing more is accepted; who connects stays in the backlog. */
  lemma {:induction false} AfterLastPoll(l: Listener, acts: seq<Act>)
    requires Over(l) && CanRun(l, acts)
    ensures var q := Run(l, acts);
            && Over(q) && q.accepted == l.accepted && q.acceptFailed == l.acceptFailed
            && |q.arrived| == |l.arrived| + LateArrivals(l, acts)
    decreases |acts|
  {
    if |acts| > 0 { AfterLastPoll(Step(l, acts[0]), acts[1..]); }
  }

  lemma {:induction false} ArrivedGrows(l: Listener, acts: seq<Act>)
    requires CanRun(l, acts)
    ensures l.arrived <= Run(l, acts).arrived
    ensures l.arrived <= ArrivedAtLastPoll(l, acts) <= Run(l, acts).arrived
    decreases |acts|
  {
    if |acts| > 0 { ArrivedGrows(Step(l, acts[0]), acts[1..]); }
  }

  lemma {:induction false} StopBeforeLastPoll(l: Listener, acts: seq<Act>)
    requires !Over(l) && CanRun(l, acts)
    ensures Over(Run(l, acts)) && !Run(l, acts).acceptFailed && l.loop == Accepting ==>
              ArrivedAtStop(l, acts) <= ArrivedAtLastPoll(l, acts)
    decreases |acts|
  {
    if |acts| > 0 {
      var l1 := Step(l, acts[0]);
      ArrivedGrows(l1, acts[1..]);
      if Over(l1) {
        AfterLastPoll(l1, acts[1..]);
      } else {
        StopBeforeLastPoll(l1, acts[1..]);
      }
    }
  }

  lemma {:induction false} LastPollSawAll(l: Listener, acts: seq<Act>)
    requires Drain(l) && !Over(l) && CanRun(l, acts)
    ensures var q := Run(l, acts);
            Over(q) && !q.acceptFailed ==>
              && q.accepted == ArrivedAtLastPoll(l, acts)
              && |q.arrived| == |q.accepted| + LateArrivals(l, acts)
    decreases |acts|
  {
    if |acts| > 0 {
      var l1 := Step(l, acts[0]);
      StepKeepsDrain(l, acts[0]);
      if Over(l1) {
        AfterLastPoll(l1, acts[1..]);
        assert acts[0].SeeEmpty? ==> l1.arrived == l1.accepted;
      } else {
        LastPollSawAll(l1, acts[1..]);
      }
    }
  }

  /**
   A listener whose loop ended without an accept error had been stopped, and had
   accepted exactly what arrived by its last poll, which includes all that was
   pending when it took the stop. That is everybody who ever connected if and only
   if nobody connected between that poll and the close.
   */
  lemma StopDrainsBacklog(owner: Option<Uid>, acts: seq<Act>)
    requires CanRun(Listening(owner), acts)
    ensures var l := Run(Listening(owner), acts);
            Over(l) && !l.acceptFailed ==>
              && l.stopped && l.accepted == ArrivedAtLastPoll(Listening(owner), acts)
              && ArrivedAtStop(Listening(owner), acts) <= l.accepted <= l.arrived
              && (l.accepted == l.arrived <==> LateArrivals(Listening(owner), acts) == 0)
  {
    RunKeepsInvariants(Listening(owner), acts);
    LastPollSawAll(Listening(owner), acts);
    StopBeforeLastPoll(Listening(owner), acts);
    ArrivedGrows(Listening(owner), acts);
    var l := Run(Listening(owner), acts);
    assert l.arrived == l.accepted + l.backlog;
    assert l.backlog == [] ==> l.accepted + [] == l.accepted;
  }

  lemma First(l: Listener, act: Act, rest: seq<Act>, next: Listener)
    requires Enabled(l, act) && Step(l, act) == next && CanRun(next, rest)
    ensures CanRun(l, [act] + rest) && Run(l, [act] + rest) == Run(next, rest)
  {
    assert ([act] + rest)[1..] == rest;
  }

  /** A schedule in which the last one to connect is never accepted. */
  lemma LateClientIsLost(owner: Option<Uid>, client: Client)
    ensures var acts := [SendStop] + ([SeeStop] + ([SeeEmpty] + ([Arrive(client)] + ([Close] + []))));
            && CanRun(Listening(owner), acts)
            && var l := Run(Listening(owner), acts);
            l.loop == Closed && !l.acceptFailed && l.accepted == [] && l.arrived == [client]
  {
    var l1 := Listening(owner).(stopped := true);
    var l2 := l1.(loop := Draining);
    var l3 := l2.(loop := Ending);
    var l4 := l3.(backlog := [client], arrived := [client]);
    First(l4, Close, [], l4.(loop := Closed));
    var r4 := [Close] + [];
    First(l3, Arrive(client), r4, l4);
    First(l2, SeeEmpty, [Arrive(client)] + r4, l3);
    First(l1, SeeStop, [SeeEmpty] + ([Arrive(client)] + r4), l2);
    First(Listening(owner), SendStop, [SeeStop] + ([SeeEmpty] + ([Arrive(client)] + r4)), l1);
  }

  /** The loop's steps left once it is to stop and nobody connects any more. */
  function Left(l: Listener): nat {
    match l.loop
    case Closed => 0
    case Ending => 1
    case Draining => |l.backlog| + 2
    case Accepting => |l.backlog| + 3
  }

  predicate IsLoopStep(act: Act) {
    act.SeeStop? || act.Accept? || act.AcceptError? || act.SeeEmpty? || act.Close?
  }

  predicate ToStop(l: Listener) {
    l.stopped || l.loop != Accepting
  }

  lemma DrainingEnds(l: Listener, act: Act)
    requires ToStop(l) && Enabled(l, act)
    ensures ToStop(Step(l, act))
    ensures IsLoopStep(act) ==> Left(Step(l, act)) < Left(l)
    ensures act.Begin? || act.End? || act.SendStop? ==> Left(Step(l, act)) == Left(l)
    ensures act.Arrive? ==> Left(Step(l, act)) <= Left(l) + 1
    ensures Enabled(l, SeeStop) || Enabled(l, Accept(None)) || Enabled(l, SeeEmpty) || Enabled(l, Close) || l.loop == Closed
  {
  }

  /** Once the stop is sent, nothing is accepted before it is taken. */
  lemma {:induction false} StopIsTakenFirst(l: Listener, acts: seq<Act>)
    requires l.stopped && l.loop == Accepting && CanRun(l, acts) && SeeStop !in acts
    ensures Run(l, acts).accepted == l.accepted && Run(l, acts).loop == Accepting && LoopSteps(acts) == 0
    decreases |acts|
  {
    if |acts| > 0 {
      assert acts[0] in acts;
      StopIsTakenFirst(Step(l, acts[0]), acts[1..]);
    }
  }

  function LoopSteps(acts: seq<Act>): nat {
    if |acts| == 0 then 0
    else (if IsLoopStep(acts[0]) then 1 else 0) + LoopSteps(acts[1..])
  }

  function Arrivals(acts: seq<Act>): nat {
    if |acts| == 0 then 0 else (if acts[0].Arrive? then 1 else 0) + Arrivals(acts[1..])
  }

  /** From the moment the stop is sent, in every schedule, the loop takes at most one step per pending or new connection and three more. */
  lemma {:induction false} DrainIsBounded(l: Listener, acts: seq<Act>)
    requires ToStop(l) && CanRun(l, acts)
    ensures LoopSteps(acts) + Left(Run(l, acts)) <= Left(l) + Arrivals(acts) <= |l.backlog| + 3 + Arrivals(acts)
    decreases |acts|
  {
    if |acts| > 0 {
      DrainingEnds(l, acts[0]);
      DrainIsBounded(Step(l, acts[0]), acts[1..]);
    }
  }

  // ---------- the loop as it runs when nobody else does ----------

  /** The listener after its loop accepted the whole backlog from peers of the given users. */
  function AcceptAll(l: Listener, uids: seq<Option<Uid>>): Listener
    requires |l.backlog| <= |uids|
    decreases |l.backlog|
  {
    if l.backlog == [] then l else AcceptAll(AcceptOne(l, uids[0]), uids[1..])
  }

  lemma MoveFirst<T>(done: seq<T>, todo: seq<T>, n: nat)
    requires 0 < n <= |todo|
    ensures (done + [todo[0]]) + todo[1..][..n - 1] == done + todo[..n]
  {
  }

  /** Every pending connection is accepted, with the user looked up for it. */
  lemma {:induction false} AcceptAllAccepts(l: Listener, uids: seq<Option<Uid>>)
    requires |l.backlog| <= |uids|
    ensures var r := AcceptAll(l, uids);
            && r.backlog == [] && r.accepted == l.accepted + l.backlog && r.peers == l.peers + uids[..|l.backlog|]
            && r.loop == l.loop && r.owner == l.owner && r.stopped == l.stopped
    decreases |l.backlog|
  {
    if l.backlog == [] {
      assert uids[..0] == [] && l.peers + [] == l.peers;
    } else {
      var l' := AcceptOne(l, uids[0]);
      AcceptAllAccepts(l', uids[1..]);
      MoveFirst(l.accepted, l.backlog, |l.backlog|);
      MoveFirst(l.peers, uids, |l.backlog|);
      assert l.backlog[..|l.backlog|] == l.backlog && l'.backlog[..|l'.backlog|] == l'.backlog;
    }
  }

  lemma AcceptOneStarts(l: Listener, peer: Option<Uid>)
    requires l.backlog != []
    ensures Clients(AcceptOne(l, peer).tasks) == Clients(l.tasks) + Admitted([l.backlog[0]], [peer], l.owner)
  {
    OneAdmitted(l.backlog[0], peer, l.owner);
  }

  /** The connections whose user is let through start their handshakes, in order. */
  lemma {:induction false} AcceptAllStarts(l: Listener, uids: seq<Option<Uid>>)
    requires |l.backlog| <= |uids|
    ensures Clients(AcceptAll(l, uids).tasks) == Clients(l.tasks) + Admitted(l.backlog, uids[..|l.backlog|], l.owner)
    decreases |l.backlog|
  {
    if l.backlog == [] {
      assert Clients(l.tasks) + [] == Clients(l.tasks);
    } else {
      var head, tail, us := [l.backlog[0]], l.backlog[1..], uids[1..][..|l.backlog| - 1];
      AcceptOneStarts(l, uids[0]);
      AcceptAllStarts(AcceptOne(l, uids[0]), uids[1..]);
      assert head + tail == l.backlog && [uids[0]] + us == uids[..|l.backlog|];
      AdmittedConcat(head, [uids[0]], tail, us, l.owner);
      Regroup(Clients(l.tasks), Admitted(head, [uids[0]], l.owner), Admitted(tail, us, l.owner));
    }
  }

  lemma Regroup<T>(a: seq<T>, b: seq<T>, c: seq<T>)
    ensures (a + b) + c == a + (b + c)
  {
  }

  lemma OneAdmitted(c: Client, p: Option<Uid>, owner: Option<Uid>)
    ensures Admitted([c], [p], owner) == if Allowed(owner, p) then [c] else []
  {
    AdmittedAppend([], [], owner, c, p);
    assert [] + [c] == [c] && [] + [p] == [p];
  }

  /**
   The loop of `before` has ended. Unless it had died earlier, every pending
   connection was accepted with the user looked up for it, and those of them let
   through - the owner's own, if there is an owner - started their handshakes in order.
   */
  predicate Ended(before: Listener, after: Listener, uids: seq<Option<Uid>>) {
    && after.loop == Closed && after.stopped && |before.backlog| <= |uids|
    && (before.loop == Closed ==> after == before.(stopped := true))
    && (before.loop == Accepting ==>
          && after.backlog == [] && after.accepted == before.accepted + before.backlog
          && after.peers == before.peers + uids[..|before.backlog|]
          && Clients(after.tasks) == Clients(before.tasks) + Admitted(before.backlog, uids[..|before.backlog|], before.owner))
  }

  /**
   `Listener::stop`: send the signal and wait for the loop to end, with no new
   arrivals. `uids` is what the peer lookup answers. A loop that had already ended
   stays as it was.
   */
  method StopAndDrain(listener: Listener, uids: seq<Option<Uid>>) returns (r: Listener)
    requires listener.loop in {Accepting, Closed} && |listener.backlog| <= |uids|
    ensures Ended(listener, r, uids)
  {
    var l, rest := listener.(stopped := true), uids;
    if l.loop == Closed {
      return l;
    }
    var draining := false;
    ghost var start := l.(loop := Draining);
    AcceptAllAccepts(start, uids);
    AcceptAllStarts(start, uids);
    while true
      invariant draining <==> l.loop == Draining
      invariant |l.backlog| <= |rest|
      invariant l.stopped && l.owner == listener.owner
      invariant AcceptAll(l.(loop := Draining), rest) == AcceptAll(start, uids)
      decreases !draining, |l.backlog|
    {
      if !draining {
        draining := true;
        l := l.(loop := Draining);
        continue;
      }
      if l.backlog == [] {
        break;
      }
      var client, peer := l.backlog[0], rest[0];
      ghost var next := AcceptOne(l, peer);
      l := l.(backlog := l.backlog[1..], accepted := l.accepted + [client], peers := l.peers + [peer]);
      rest := rest[1..];
      if l.owner.Some? {
        var allowed := peer == l.owner;
        if !allowed {
          assert l == next;
          continue;
        }
      }
      l := l.(tasks := l.tasks + [Task(client, l.previous, Waiting)], previous := Some(|l.tasks|));
      assert l == next;
    }
    l := l.(loop := Ending);
    r := l.(loop := Closed);
  }

  // ---------- the table of listeners ----------

  datatype Entry = Entry(owner: Option<Uid>, serial: string, listener: Listener)

  /** Who holds each port, and for which device. */
  function Owners(listeners: map<Port, Entry>): map<Port, (Uid, string)> {
    map p | p in listeners && listeners[p].owner.Some? :: (listeners[p].owner.value, listeners[p].serial)
  }

  lemma OwnersAfterAdd(listeners: map<Port, Entry>, port: Port, bound: Port, uid: Uid, serial: string, l: Listener)
    ensures Owners((listeners - {port})[bound := Entry(Some(uid), serial, l)]) == (Owners(listeners) - {port})[bound := (uid, serial)]
  {
  }

  lemma OwnersAfterRemove(listeners: map<Port, Entry>, port: Port)
    ensures Owners(listeners - {port}) == Owners(listeners) - {port}
  {
  }

  class TunnelManager {
    var listeners: map<Port, Entry>

    constructor ()
      ensures listeners == map[]
    {
      listeners := map[];
    }

    /** No listener in the table was told to stop yet; `n` bounds their backlogs. */
    predicate Live(n: nat)
      reads this
    {
      forall p :: p in listeners ==> listeners[p].listener.loop in {Accepting, Closed} && |listeners[p].listener.backlog| <= n
    }

    predicate IsMine(port: Port, serial: string, owner: Option<Uid>)
      reads this
    {
      port in listeners && listeners[port].owner == owner && listeners[port].serial == serial
    }

    /** Drop the listeners of one owner. Nobody waits for them: they are told to stop and drain on their own. */
    method RemoveOwner(owner: Uid)
      modifies this
      ensures listeners == map p | p in old(listeners) && old(listeners)[p].owner != Some(owner) :: old(listeners)[p]
    {
      listeners := map p | p in listeners && listeners[p].owner != Some(owner) :: listeners[p];
    }

    /**
     Open a listener. `bound` is what the operating system answers to the bind: the
     port it gave, or nothing. `ended` is the listener it replaced, drained.
     */
    method Add(port: Port, serial: string, owner: Option<Uid>, bound: Option<Port>, uids: seq<Option<Uid>>)
      returns (r: Option<Port>, ended: Option<Listener>)
      requires Live(|uids|)
      requires bound.Some? && port != 0 ==> bound.value == port
      modifies this
      ensures Live(|uids|)
      ensures port in old(listeners) && !old(IsMine(port, serial, owner)) ==> r == None && listeners == old(listeners)
      ensures port !in old(listeners) || old(IsMine(port, serial, owner)) ==>
                && r == bound
                && listeners == (if bound.Some? then (old(listeners) - {port})[bound.value := Entry(owner, serial, Listening(owner))] else old(listeners) - {port})
      ensures ended.Some? <==> old(IsMine(port, serial, owner))
      ensures ended.Some? ==> Ended(old(listeners)[port].listener, ended.value, uids)
    {
      ended := None;
      if port in listeners {
        var previous := listeners[port];
        if previous.owner != owner || previous.serial != serial {
          return None, None;
        }
        listeners := listeners - {port};
        var l := StopAndDrain(previous.listener, uids);
        ended := Some(l);
      }
      assert listeners == old(listeners) - {port};
      if bound.Some? {
        listeners := listeners[bound.value := Entry(owner, serial, Listening(owner))];
      }
      r := bound;
    }

    /** Close a listener of one's own; true only once its loop has ended. */
    method Remove(port: Port, serial: string, owner: Option<Uid>, uids: seq<Option<Uid>>)
      returns (removed: bool, ended: Option<Listener>)
      requires Live(|uids|)
      modifies this
      ensures Live(|uids|)
      ensures removed <==> old(IsMine(port, serial, owner))
      ensures removed ==> ended.Some? && Ended(old(listeners)[port].listener, ended.value, uids) && listeners == old(listeners) - {port}
      ensures !removed ==> ended.None? && listeners == old(listeners)
    {
      if IsMine(port, serial, owner) {
        var entry := listeners[port];
        listeners := listeners - {port};
        var l := StopAndDrain(entry.listener, uids);
        return true, Some(l);
      }
      return false, None;
    }
  }

  // ---------- any series of calls ----------

  /** What one user may ask for; `bound` is the answer of the operating system to the bind. */
  datatype Call = AddCall(port: Port, serial: string, bound: Option<Port>) | RemoveCall(port: Port, serial: string) | LeaveCall

  /** A bind gives the port asked for, and for port 0 one that is not in use. */
  predicate Plausible(call: Call, inUse: Port) {
    call.AddCall? && call.bound.Some? ==> if call.port != 0 then call.bound.value == call.port else call.bound.value != inUse
  }

  method Perform(m: TunnelManager, theirs: Port, owner: Uid, call: Call, uids: seq<Option<Uid>>)
    requires m.Live(|uids|) && Plausible(call, theirs)
    requires theirs in m.listeners && m.listeners[theirs].owner != Some(owner)
    modifies m
    ensures m.Live(|uids|)
    ensures theirs in m.listeners && m.listeners[theirs] == old(m.listeners[theirs])
  {
    match call
    case AddCall(port, serial, bound) =>
      var r, replaced := m.Add(port, serial, Some(owner), bound, uids);
    case RemoveCall(port, serial) =>
      var removed, ended := m.Remove(port, serial, Some(owner), uids);
    case LeaveCall =>
      m.RemoveOwner(owner);
  }

  /** Whatever other users add and remove, in any number and order, a listener stays in its owner's hands, untouched. */
  method OthersKeepTheirListener(m: TunnelManager, theirs: Port, calls: seq<(Uid, Call)>, uids: seq<Option<Uid>>)
    requires m.Live(|uids|) && theirs in m.listeners
    requires forall k :: 0 <= k < |calls| ==> m.listeners[theirs].owner != Some(calls[k].0) && Plausible(calls[k].1, theirs)
    modifies m
    ensures theirs in m.listeners && m.listeners[theirs] == old(m.listeners[theirs])
  {
    for k := 0 to |calls|
      invariant m.Live(|uids|)
      invariant theirs in m.listeners && m.listeners[theirs] == old(m.listeners[theirs])
    {
      Perform(m, theirs, calls[k].0, calls[k].1, uids);
    }
  }
}
