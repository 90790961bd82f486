/** Event listeners that race a peer notification against a 30-second timer,
    and the `Promise.all` join over them. Timers and event delivery are
    modelled as explicit events; nothing here measures time. */
module FabricListeners {

  /** The state of a promise. Once settled it never changes again. */
  datatype Settlement = Pending | Resolved | Rejected

  function Settle(current: Settlement, outcome: Settlement): Settlement {
    if current == Pending then outcome else current
  }

  /** `Promise.all`: rejects as soon as any member rejects, resolves when
      every member has resolved, and is still pending otherwise. */
  function AllOf(ps: seq<Settlement>): (r: Settlement)
    ensures r == Rejected <==> exists i :: 0 <= i < |ps| && ps[i] == Rejected
    ensures r == Resolved <==> forall i :: 0 <= i < |ps| ==> ps[i] == Resolved
  {
    if ps == [] then Resolved
    else
      var rest := AllOf(ps[1..]);
      assert forall i :: 1 <= i < |ps| ==> ps[i] == ps[1..][i - 1];
      if ps[0] == Rejected || rest == Rejected then Rejected
      else if ps[0] == Pending then Pending
      else rest
  }

  // ---------------------------------------------------------------------
  // Join-channel block listener (`joinChannelPromise`)
  // ---------------------------------------------------------------------

  /** A block as the listener sees it: the channel id in the header of each
      of its transactions. */
  datatype Block = Block(txChannelIds: seq<string>)

  datatype BlockEvent = BlockArrived(block: Block) | JoinTimerFired

  datatype JoinState = JoinState(timerArmed: bool, settlement: Settlement)

  /** Right after registration: the 30-second timer is armed, nothing settled. */
  const JoinStart := JoinState(true, Pending)

  /** One event seen by the listener. Every block clears the timer; only a
      block holding exactly one transaction settles the promise, resolving
      when its channel id is the channel being joined. The timer rejects
      only while it is still armed. */
  function JoinStep(channelName: string, s: JoinState, e: BlockEvent): JoinState {
    match e
    case BlockArrived(b) =>
      if |b.txChannelIds| == 1 then
        JoinState(false, Settle(s.settlement, if b.txChannelIds[0] == channelName then Resolved else Rejected))
      else
        JoinState(false, s.settlement)
    case JoinTimerFired =>
      if s.timerArmed then JoinState(false, Settle(s.settlement, Rejected)) else s
  }

  function RunJoin(channelName: string, s: JoinState, events: seq<BlockEvent>): JoinState
    decreases |events|
  {
    if events == [] then s else RunJoin(channelName, JoinStep(channelName, s, events[0]), events[1..])
  }

  predicate NonSingleBlock(e: BlockEvent) {
    e.BlockArrived? && |e.block.txChannelIds| != 1
  }

  /** A settled listener stays settled whatever arrives later. */
  lemma {:induction false} JoinSettledIsFinal(channelName: string, s: JoinState, events: seq<BlockEvent>)
    requires s.settlement != Pending
    ensures RunJoin(channelName, s, events).settlement == s.settlement
    decreases |events|
  {
    if events != [] {
      JoinSettledIsFinal(channelName, JoinStep(channelName, s, events[0]), events[1..]);
    }
  }

  /** Blocks that do not hold exactly one transaction leave the listener
      pending, and with the timer cleared. */
  lemma {:induction false} JoinNonSingleBlocksKeepPending(channelName: string, s: JoinState, events: seq<BlockEvent>)
    requires s.settlement == Pending
    requires forall i :: 0 <= i < |events| ==> NonSingleBlock(events[i])
    ensures RunJoin(channelName, s, events).settlement == Pending
    ensures events != [] ==> !RunJoin(channelName, s, events).timerArmed
    decreases |events|
  {
    if events != [] {
      var next := JoinStep(channelName, s, events[0]);
      assert !next.timerArmed;
      JoinNonSingleBlocksKeepPending(channelName, next, events[1..]);
    }
  }

  /** Once the timer has been cleared it never fires: a pending listener
      with no timer stays pending through any number of timer events. */
  lemma {:induction false} JoinClearedTimerNeverFires(channelName: string, events: seq<BlockEvent>)
    requires forall i :: 0 <= i < |events| ==> events[i] == JoinTimerFired
    ensures RunJoin(channelName, JoinState(false, Pending), events) == JoinState(false, Pending)
    decreases |events|
  {
    if events != [] {
      JoinClearedTimerNeverFires(channelName, events[1..]);
    }
  }

  /** The first single-transaction block decides the join listener: it
      resolves exactly when that block's channel id is the joined channel,
      whatever non-single blocks came before and whatever comes after. */
  lemma JoinDecidedByFirstSingleBlock(channelName: string, before: seq<BlockEvent>, id: string, after: seq<BlockEvent>)
    requires forall i :: 0 <= i < |before| ==> NonSingleBlock(before[i])
    ensures RunJoin(channelName, JoinStart, before + [BlockArrived(Block([id]))] + after).settlement
            == (if id == channelName then Resolved else Rejected)
  {
    var events := before + [BlockArrived(Block([id]))] + after;
    JoinRunSplit(channelName, JoinStart, before, [BlockArrived(Block([id]))] + after);
    assert events == before + ([BlockArrived(Block([id]))] + after);
    JoinNonSingleBlocksKeepPending(channelName, JoinStart, before);
    var mid := RunJoin(channelName, JoinStart, before);
    var decided := JoinStep(channelName, mid, BlockArrived(Block([id])));
    assert decided.settlement == (if id == channelName then Resolved else Rejected);
    JoinSettledIsFinal(channelName, decided, after);
    assert ([BlockArrived(Block([id]))] + after)[1..] == after;
  }

  /** With no block before it, the timer rejects the listener for good. */
  lemma JoinTimeoutRejects(channelName: string, after: seq<BlockEvent>)
    ensures RunJoin(channelName, JoinStart, [JoinTimerFired] + after).settlement == Rejected
  {
    assert ([JoinTimerFired] + after)[1..] == after;
    JoinSettledIsFinal(channelName, JoinState(false, Rejected), after);
  }

  lemma {:induction false} JoinRunSplit(channelName: string, s: JoinState, xs: seq<BlockEvent>, ys: seq<BlockEvent>)
    ensures RunJoin(channelName, s, xs + ys) == RunJoin(channelName, RunJoin(channelName, s, xs), ys)
    decreases |xs|
  {
    if xs == [] {
      assert xs + ys == ys;
    } else {
      assert (xs + ys)[1..] == xs[1..] + ys;
      JoinRunSplit(channelName, JoinStep(channelName, s, xs[0]), xs[1..], ys);
    }
  }

  // ---------------------------------------------------------------------
  // Commit listener (`registerTxEvent` in instantiate and invoke)
  // ---------------------------------------------------------------------

  /** The notification for the transaction id with its validation code, or
      the 30-second timer firing. */
  datatype CommitEvent = TxCommitted(code: string) | CommitTimerFired

  /** The listener's timer, its registration, its hub's connection, how many
      times it disconnected the hub, and its promise. */
  datatype CommitState = CommitState(timerArmed: bool, registered: bool, connected: bool,
                                     disconnects: nat, settlement: Settlement)

  const CommitStart := CommitState(true, true, true, 0, Pending)

  const ValidCode := "VALID"

  /** A notification is delivered only while the hub is connected and the
      listener registered: it clears the timer, unregisters, disconnects and
      resolves iff the code is `VALID`. The armed timer disconnects and
      rejects. */
  function CommitStep(s: CommitState, e: CommitEvent): CommitState {
    match e
    case TxCommitted(code) =>
      if s.registered && s.connected then
        CommitState(false, false, false, s.disconnects + 1,
                    Settle(s.settlement, if code == ValidCode then Resolved else Rejected))
      else s
    case CommitTimerFired =>
      if s.timerArmed then
        CommitState(false, s.registered, false, s.disconnects + 1, Settle(s.settlement, Rejected))
      else s
  }

  function RunCommit(s: CommitState, events: seq<CommitEvent>): CommitState
    decreases |events|
  {
    if events == [] then s else RunCommit(CommitStep(s, events[0]), events[1..])
  }

  /** No timer and no connection: nothing can happen to the listener. */
  predicate Quiescent(s: CommitState) {
    !s.timerArmed && !s.connected
  }

  lemma {:induction false} QuiescentStaysPut(s: CommitState, events: seq<CommitEvent>)
    requires Quiescent(s)
    ensures RunCommit(s, events) == s
    decreases |events|
  {
    if events != [] {
      QuiescentStaysPut(CommitStep(s, events[0]), events[1..]);
    }
  }

  /** The first event decides a commit listener: it resolves iff that event
      is a `VALID` notification (so the notification beat the timer), the hub
      is disconnected exactly once, and later events change nothing. */
  lemma CommitFirstEventDecides(events: seq<CommitEvent>)
    requires events != []
    ensures RunCommit(CommitStart, events).settlement == Resolved <==> events[0] == TxCommitted(ValidCode)
    ensures RunCommit(CommitStart, events).settlement != Pending
    ensures RunCommit(CommitStart, events).disconnects == 1
    ensures !RunCommit(CommitStart, events).connected
  {
    var first := CommitStep(CommitStart, events[0]);
    QuiescentStaysPut(first, events[1..]);
  }

  /** The timer bounds every wait: after it fires, the listener is settled. */
  lemma {:induction false} CommitTimerBoundsWait(events: seq<CommitEvent>)
    ensures RunCommit(CommitStart, events + [CommitTimerFired]).settlement != Pending
  {
    var all := events + [CommitTimerFired];
    CommitFirstEventDecides(all);
  }

  // ---------------------------------------------------------------------
  // Event hubs and the imperative listeners
  // ---------------------------------------------------------------------

  /** A peer's event-hub connection. */
  class EventHub {
    var connected: bool
    var disconnects: nat

    constructor (connected: bool)
      ensures this.connected == connected && disconnects == 0
    {
      this.connected := connected;
      disconnects := 0;
    }

    method Connect()
      modifies this
      ensures connected && disconnects == old(disconnects)
    {
      connected := true;
    }

    method Disconnect()
      modifies this
      ensures !connected && disconnects == old(disconnects) + 1
    {
      connected := false;
      disconnects := disconnects + 1;
    }
  }

  /** `closeConnections` in `joinChannel`: disconnect every hub that is still
      connected, and only those. */
  method CloseConnections(hubs: seq<EventHub>)
    requires forall i, j :: 0 <= i < j < |hubs| ==> hubs[i] != hubs[j]
    modifies set h | h in hubs
    ensures forall i :: 0 <= i < |hubs| ==>
      !hubs[i].connected &&
      hubs[i].disconnects == old(hubs[i].disconnects) + (if old(hubs[i].connected) then 1 else 0)
  {
    var k := 0;
    while k < |hubs|
      invariant 0 <= k <= |hubs|
      invariant forall i :: 0 <= i < k ==>
        !hubs[i].connected &&
        hubs[i].disconnects == old(hubs[i].disconnects) + (if old(hubs[i].connected) then 1 else 0)
      invariant forall i :: k <= i < |hubs| ==>
        hubs[i].connected == old(hubs[i].connected) && hubs[i].disconnects == old(hubs[i].disconnects)
    {
      var eventhub := hubs[k];
      if eventhub.connected {
        eventhub.Disconnect();
      }
      k := k + 1;
    }
  }

  /** The block listener registered on one hub while joining a channel,
      as the object the event hub calls back. Each callback moves it by
      `JoinStep`; the operations, which see a listener only through the
      settlement its events lead to, use `RunJoin` over the same steps. */
  class JoinListener {
    const channelName: string
    var timerArmed: bool
    var settlement: Settlement

    function State(): JoinState
      reads this
    {
      JoinState(timerArmed, settlement)
    }

    constructor (channelName: string)
      ensures this.channelName == channelName && State() == JoinStart
    {
      this.channelName := channelName;
      timerArmed := true;
      settlement := Pending;
    }

    method OnBlock(block: Block)
      modifies this
      ensures State() == JoinStep(channelName, old(State()), BlockArrived(block))
    {
      timerArmed := false;
      if |block.txChannelIds| == 1 {
        if block.txChannelIds[0] == channelName {
          settlement := Settle(settlement, Resolved);
        } else {
          settlement := Settle(settlement, Rejected);
        }
      }
    }

    method OnTimeout()
      modifies this
      ensures State() == JoinStep(channelName, old(State()), JoinTimerFired)
    {
      if timerArmed {
        timerArmed := false;
        settlement := Settle(settlement, Rejected);
      }
    }
  }

  /** The transaction listener registered on one hub for a transaction id,
      as the object the event hub calls back. Each callback moves it and
      its hub by `CommitStep`; the operations use `RunCommit` over the
      same steps. */
  class CommitListener {
    const hub: EventHub
    var timerArmed: bool
    var registered: bool
    var settlement: Settlement

    function State(): CommitState
      reads this, hub
    {
      CommitState(timerArmed, registered, hub.connected, hub.disconnects, settlement)
    }

    constructor (hub: EventHub)
      requires hub.connected && hub.disconnects == 0
      ensures this.hub == hub && State() == CommitStart
    {
      this.hub := hub;
      timerArmed := true;
      registered := true;
      settlement := Pending;
    }

    method OnTxEvent(code: string)
      modifies this, hub
      ensures State() == CommitStep(old(State()), TxCommitted(code))
    {
      if registered && hub.connected {
        timerArmed := false;
        registered := false;
        hub.Disconnect();
        settlement := Settle(settlement, if code == ValidCode then Resolved else Rejected);
      }
    }

    method OnTimeout()
      modifies this, hub
      ensures State() == CommitStep(old(State()), CommitTimerFired)
    {
      if timerArmed {
        timerArmed := false;
        hub.Disconnect();
        settlement := Settle(settlement, Rejected);
      }
    }
  }
}
