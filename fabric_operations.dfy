/** The result rules of the dashboard's ledger operations: join a channel,
    install and instantiate chaincode, invoke and query it. The ledger
    library is replaced by its answers (proposal responses, the orderer's
    reply, the events each listener sees); the deployment collection is a
    map of records. */
module FabricOperations {
  import opened Common
  import opened FabricTopology
  import opened FabricListeners
  import opened FabricIdentity

  // ---------------------------------------------------------------------
  // Proposal responses and the endorsement check
  // ---------------------------------------------------------------------

  datatype PeerResponse = PeerResponse(status: int, message: string, payload: string)

  /** One entry of a proposal's response array: a peer's response (whose
      `response` or `endorsement` part may be missing), or the error object
      the library puts in the array for a peer that failed. */
  datatype ProposalResponse =
    | ProposalResponse(response: Option<PeerResponse>, endorsement: Option<string>)
    | PeerError(message: string)

  const StatusOK := 200

  predicate ProposalGood(p: ProposalResponse) {
    p.ProposalResponse? && p.response.Some? && p.response.value.status == StatusOK
  }

  /** Every response is present and carries status 200 (true of no responses). */
  predicate EndorsementsGood(proposalResponses: seq<ProposalResponse>) {
    forall i :: 0 <= i < |proposalResponses| ==> ProposalGood(proposalResponses[i])
  }

  /** The `all_good` fold shared by install, instantiate and invoke. The
      source accumulates with bitwise `&`, whose 0/1 result has the same
      truthiness as the conjunction computed here. */
  method AllGood(proposalResponses: seq<ProposalResponse>) returns (allGood: bool)
    ensures allGood == EndorsementsGood(proposalResponses)
  {
    allGood := true;
    var i := 0;
    while i < |proposalResponses|
      invariant 0 <= i <= |proposalResponses|
      invariant allGood == EndorsementsGood(proposalResponses[..i])
    {
      var oneGood := false;
      if ProposalGood(proposalResponses[i]) {
        oneGood := true;
      }
      assert proposalResponses[..i + 1] == proposalResponses[..i] + [proposalResponses[i]];
      allGood := allGood && oneGood;
      i := i + 1;
    }
    assert proposalResponses[..i] == proposalResponses;
  }

  /** After a good fold, the success log line reads the first response's
      status (and, for instantiate and invoke, its endorsement signature);
      this is what keeps the operation from throwing there. */
  predicate FirstResponseReadable(proposalResponses: seq<ProposalResponse>, withEndorsement: bool) {
    |proposalResponses| > 0 && proposalResponses[0].ProposalResponse? &&
    proposalResponses[0].response.Some? &&
    (withEndorsement ==> proposalResponses[0].endorsement.Some?)
  }

  /** The orderer's reply to `sendTransaction`, or its rejection. */
  datatype OrdererAnswer = Broadcast(status: string) | BroadcastRejected

  const SuccessStatus := "SUCCESS"

  // ---------------------------------------------------------------------
  // Operation results
  // ---------------------------------------------------------------------

  /** The `{success, message, result, transactionID, deployId}` object. */
  datatype Reply = Reply(success: bool, message: Option<string>, result: Option<string>,
                         transactionID: Option<string>, deployId: Option<string>)

  function Failure(message: string): Reply {
    Reply(false, Some(message), None, None, None)
  }

  const InstallFailed := "Failed to send install Proposal or receive valid response. Response null or status is not 200. exiting..."
  const InstantiateFailed := "Failed to send instantiate Proposal or receive valid response. Response null or status is not 200. exiting..."
  const ProposalFailed := "Failed to send Proposal or receive valid response. Response null or status is not 200. exiting..."
  const CommitTimeout := "Failed to send transaction and get notifications within the timeout period."
  const OrderFailedPrefix := "Failed to order the transaction. Error code: "
  const PayloadsNull := "response_payloads is null"
  const QueryErrorPrefix := "Failed to send query due to error: "

  // ---------------------------------------------------------------------
  // Names built from identifiers
  // ---------------------------------------------------------------------

  /** The chaincode id of an installed smart contract. */
  function ChainCodeName(chainId: string, smartContractCodeId: string): string {
    chainId + "-" + smartContractCodeId
  }

  /** When the chain id has no `-`, the chaincode name determines both ids. */
  lemma ChainCodeNameInjective(chain1: string, code1: string, chain2: string, code2: string)
    requires '-' !in chain1 && '-' !in chain2
    requires ChainCodeName(chain1, code1) == ChainCodeName(chain2, code2)
    ensures chain1 == chain2 && code1 == code2
  {
    SeparatedInjective(chain1, code1, chain2, code2, '-');
  }

  /** Where a user's copy of a chain's chaincode sources is staged. */
  function ChainRootPath(userId: string, chainId: string): string {
    "/opt/data/" + userId + "/chains/" + chainId
  }

  /** Users whose ids have no `/` never share a staging directory, and one
      user's chains never share one either. */
  lemma ChainRootPathInjective(user1: string, chain1: string, user2: string, chain2: string)
    requires '/' !in user1 && '/' !in user2
    requires ChainRootPath(user1, chain1) == ChainRootPath(user2, chain2)
    ensures user1 == user2 && chain1 == chain2
  {
    var tail1 := "chains/" + chain1;
    var tail2 := "chains/" + chain2;
    assert ChainRootPath(user1, chain1)[10..] == user1 + ['/'] + tail1;
    assert ChainRootPath(user2, chain2)[10..] == user2 + ['/'] + tail2;
    SeparatedInjective(user1, tail1, user2, tail2, '/');
    assert chain1 == tail1[7..];
    assert chain2 == tail2[7..];
  }

  // ---------------------------------------------------------------------
  // Deployment records
  // ---------------------------------------------------------------------

  datatype DeployStatus = Installed | Instantiating | Instantiated | Error | OtherStatus(text: string)

  datatype Deployment = Deployment(smartContractCode: string, smartContract: string, name: string,
                                   chain: string, user: string, status: DeployStatus, deployTime: Option<int>)

  /** The equality filter of the install upsert. */
  datatype DeployFilter = DeployFilter(smartContractCode: string, smartContract: string, name: string,
                                       chain: string, user: string)

  predicate Matches(d: Deployment, f: DeployFilter) {
    d.smartContractCode == f.smartContractCode && d.smartContract == f.smartContract &&
    d.name == f.name && d.chain == f.chain && d.user == f.user
  }

  function Inserted(f: DeployFilter, status: DeployStatus): Deployment {
    Deployment(f.smartContractCode, f.smartContract, f.name, f.chain, f.user, status, None)
  }

  /** The deployment collection, by record id. */
  class DeploymentStore {
    var records: map<string, Deployment>

    constructor (records: map<string, Deployment>)
      ensures this.records == records
    {
      this.records := records;
    }

    /** `findOneAndUpdate(filter, {status: 'installed'}, {upsert: true})`. */
    method UpsertInstalled(filter: DeployFilter, freshId: string) returns (id: string)
      requires freshId !in records
      modifies this
      ensures id in records && Matches(records[id], filter) && records[id].status == Installed
      ensures (exists k :: k in old(records) && Matches(old(records)[k], filter)) ==>
        id in old(records) && Matches(old(records)[id], filter) &&
        records == old(records)[id := old(records)[id].(status := Installed)]
      ensures (forall k :: k in old(records) ==> !Matches(old(records)[k], filter)) ==>
        id == freshId && records == old(records)[freshId := Inserted(filter, Installed)]
    {
      if exists k :: k in records && Matches(records[k], filter) {
        id :| id in records && Matches(records[id], filter);
        records := records[id := records[id].(status := Installed)];
      } else {
        id := freshId;
        records := records[id := Inserted(filter, Installed)];
      }
    }

    method SetStatus(id: string, status: DeployStatus)
      requires id in records
      modifies this
      ensures records == old(records)[id := old(records)[id].(status := status)]
    {
      records := records[id := records[id].(status := status)];
    }

    method MarkInstantiated(id: string, now: int)
      requires id in records
      modifies this
      ensures records == old(records)[id := old(records)[id].(status := Instantiated, deployTime := Some(now))]
    {
      records := records[id := records[id].(status := Instantiated, deployTime := Some(now))];
    }
  }

  // ---------------------------------------------------------------------
  // installSmartContract
  // ---------------------------------------------------------------------

  datatype SmartContractCode = SmartContractCode(smartContract: string, version: string, path: string)

  datatype Chain = Chain(chainId: string)

  function InstallSucceeded(org: string, id: string): Reply {
    Reply(true, Some("Successfully Installed chaincode on organization " + org), None, None, Some(id))
  }

  /** Install chaincode on the named peers. `code` and `chain` are the
      looked-up records (`None` when absent), `answer` the library's proposal
      responses (`None` when it rejects), `freshId` the id a new record gets.
      Only an all-good, non-empty response set upserts the record, as
      `installed` under `chain.chainId-codeId`; an empty set passes the fold
      but then throws while logging, before the upsert. */
  method InstallSmartContract(store: DeploymentStore, userId: string, smartContractCodeId: string,
                              code: Option<SmartContractCode>, chainId: string, chain: Option<Chain>,
                              org: string, answer: Option<seq<ProposalResponse>>, freshId: string)
    returns (r: Outcome<Reply>)
    requires freshId !in store.records
    modifies store
    ensures (r.Returned? && r.value.success) <==>
      code.Some? && chain.Some? && answer.Some? && EndorsementsGood(answer.value) && |answer.value| > 0
    ensures r.Returned? && r.value.success ==>
      r.value.deployId.Some? && r == Returned(InstallSucceeded(org, r.value.deployId.value)) &&
      var id := r.value.deployId.value;
      id in store.records && store.records[id].status == Installed &&
      Matches(store.records[id], DeployFilter(smartContractCodeId, code.value.smartContract,
                                              ChainCodeName(chain.value.chainId, smartContractCodeId), chainId, userId)) &&
      (forall k :: k in old(store.records) && k != id ==> k in store.records && store.records[k] == old(store.records)[k]) &&
      store.records.Keys <= old(store.records).Keys + {freshId}
    // The upsert: a record matching the filter is updated in place, and a
    // new one is inserted only when none matches.
    ensures r.Returned? && r.value.success ==>
      var id := r.value.deployId.value;
      var filter := DeployFilter(smartContractCodeId, code.value.smartContract,
                                 ChainCodeName(chain.value.chainId, smartContractCodeId), chainId, userId);
      && ((exists k :: k in old(store.records) && Matches(old(store.records)[k], filter)) ==>
            id in old(store.records) && Matches(old(store.records)[id], filter) &&
            store.records == old(store.records)[id := old(store.records)[id].(status := Installed)])
      && ((forall k :: k in old(store.records) ==> !Matches(old(store.records)[k], filter)) ==>
            id == freshId && store.records == old(store.records)[freshId := Inserted(filter, Installed)])
    ensures !(r.Returned? && r.value.success) ==> store.records == old(store.records)
    ensures code.Some? && chain.Some? && answer.Some? && !EndorsementsGood(answer.value) ==>
      r == Returned(Failure(InstallFailed))
    ensures answer == Some([]) ==> r.Threw?
    // A null chain or code, a rejected proposal and an empty response list
    // all throw; nothing else does, and the call never stays pending.
    ensures r.Threw? <==> chain.None? || code.None? || answer.None? || answer.value == []
    ensures !r.Waiting?
  {
    if chain.None? {
      return Threw("TypeError: chain is null");
    }
    var chainCodeName := ChainCodeName(chain.value.chainId, smartContractCodeId);
    if code.None? {
      return Threw("TypeError: smartContractCode is null");
    }
    if answer.None? {
      return Threw("installChaincode rejected");
    }
    var proposalResponses := answer.value;
    var allGood := AllGood(proposalResponses);
    if allGood {
      if |proposalResponses| == 0 {
        return Threw("TypeError: proposalResponses[0] is undefined");
      }
      var filter := DeployFilter(smartContractCodeId, code.value.smartContract, chainCodeName, chainId, userId);
      var id := store.UpsertInstalled(filter, freshId);
      return Returned(InstallSucceeded(org, id));
    }
    return Returned(Failure(InstallFailed));
  }

  // ---------------------------------------------------------------------
  // instantiateSmartContract
  // ---------------------------------------------------------------------

  /** What instantiate hands back: the orderer's reply object, or the
      failure text (a bare string, not a result object). */
  datatype InstantiateValue = OrdererReply(status: string) | FailureText(text: string)

  const CommitPeer := "peer1"

  /** Instantiate a deployed chaincode. The record becomes `instantiating`
      before any network call, `instantiated` (with `deployTime`) as soon as
      the proposals are good, before ordering and commit, and `error` only on
      a bad proposal. The commit listener always watches `peer1`. */
  method InstantiateSmartContract(store: DeploymentStore, network: Network, org: string, deployId: string,
                                  answer: Option<seq<ProposalResponse>>, now: int,
                                  send: OrdererAnswer, commitEvents: seq<CommitEvent>)
    returns (r: Outcome<InstantiateValue>, listenedOn: Option<Remote>)
    requires HasOrg(network, org)
    modifies store
    ensures deployId !in old(store.records) ==> r.Threw? && listenedOn.None? && store.records == old(store.records)
    ensures deployId in old(store.records) ==>
      store.records.Keys == old(store.records).Keys &&
      (forall k :: k in old(store.records) && k != deployId ==> store.records[k] == old(store.records)[k])
    ensures deployId in old(store.records) && answer.None? ==>
      r.Threw? && store.records[deployId] == old(store.records)[deployId].(status := Instantiating)
    ensures deployId in old(store.records) && answer.Some? && EndorsementsGood(answer.value) ==>
      store.records[deployId] == old(store.records)[deployId].(status := Instantiated, deployTime := Some(now))
    ensures deployId in old(store.records) && answer.Some? && !EndorsementsGood(answer.value) ==>
      r == Returned(FailureText(InstantiateFailed)) &&
      store.records[deployId] == old(store.records)[deployId].(status := Error)
    ensures listenedOn.Some? ==> CommitPeer in network[org].peers && listenedOn.value == RemoteFor(network[org].peers, CommitPeer, false)
    ensures (r.Returned? && r.value.OrdererReply?) <==>
      deployId in old(store.records) && answer.Some? && EndorsementsGood(answer.value) &&
      FirstResponseReadable(answer.value, true) && CommitPeer in network[org].peers &&
      send.Broadcast? && RunCommit(CommitStart, commitEvents).settlement == Resolved
    ensures r.Returned? && r.value.OrdererReply? ==> r.value.status == send.status && listenedOn.Some?
    // After good proposals: reading the first response or the commit peer
    // can throw; then a rejected send or commit listener throws, and a
    // listener still pending leaves the call waiting.
    ensures deployId in old(store.records) && answer.Some? && EndorsementsGood(answer.value) ==>
      && (!FirstResponseReadable(answer.value, true) || CommitPeer !in network[org].peers ==>
            r.Threw? && listenedOn.None?)
      && (FirstResponseReadable(answer.value, true) && CommitPeer in network[org].peers ==>
            && listenedOn == Some(RemoteFor(network[org].peers, CommitPeer, false))
            && (send.BroadcastRejected? ==> r.Threw?)
            && (send.Broadcast? && RunCommit(CommitStart, commitEvents).settlement == Rejected ==> r.Threw?)
            && (send.Broadcast? && RunCommit(CommitStart, commitEvents).settlement == Pending ==> r.Waiting?))
  {
    listenedOn := None;
    if deployId !in store.records {
      return Threw("TypeError: deploy is null"), None;
    }
    store.SetStatus(deployId, Instantiating);
    if answer.None? {
      return Threw("sendInstantiateProposal rejected"), None;
    }
    var proposalResponses := answer.value;
    var allGood := AllGood(proposalResponses);
    if allGood {
      store.MarkInstantiated(deployId, now);
      if |proposalResponses| == 0 || proposalResponses[0].endorsement.None? {
        return Threw("TypeError: reading proposalResponses[0]"), None;
      }
      if CommitPeer !in network[org].peers {
        return Threw("TypeError: peers.peer1 is undefined"), None;
      }
      listenedOn := Some(RemoteFor(network[org].peers, CommitPeer, false));
      if send.BroadcastRejected? {
        return Threw("sendTransaction rejected"), listenedOn;
      }
      var listener := RunCommit(CommitStart, commitEvents).settlement;
      match listener {
        case Resolved => r := Returned(OrdererReply(send.status));
        case Rejected => r := Threw("commit listener rejected");
        case Pending => r := Waiting;
      }
      return;
    }
    store.SetStatus(deployId, Error);
    return Returned(FailureText(InstantiateFailed)), None;
  }

  // ---------------------------------------------------------------------
  // invokeChainCode
  // ---------------------------------------------------------------------

  /** The peers whose hubs the invoke listens on: the caller's names when
      given, else the names of the channel's peers. */
  function ListenPeers(peerNames: Option<seq<string>>, channelPeers: seq<string>): seq<string> {
    if peerNames.Some? then peerNames.value else channelPeers
  }

  predicate AllCommitted(commitEvents: seq<seq<CommitEvent>>) {
    forall k :: 0 <= k < |commitEvents| ==> RunCommit(CommitStart, commitEvents[k]).settlement == Resolved
  }

  predicate SomeCommitRejected(commitEvents: seq<seq<CommitEvent>>) {
    exists k :: 0 <= k < |commitEvents| && RunCommit(CommitStart, commitEvents[k]).settlement == Rejected
  }

  function InvokeSucceeded(txId: string): Reply {
    Reply(true, None, None, Some(txId), None)
  }

  /** Invoke a chaincode function. `identity` is how the user lookup ended
      (its value is ignored), `channelPeers` the channel's peer names,
      `commitEvents[k]` the events seen by the listener on the k-th resolved
      hub. Returns the result and whether the transaction went to the
      orderer. */
  method InvokeChainCode(network: Network, org: string, peerNames: Option<seq<string>>, channelPeers: seq<string>,
                         identity: Outcome<Member>, answer: Option<seq<ProposalResponse>>, txId: string,
                         send: OrdererAnswer, commitEvents: seq<seq<CommitEvent>>)
    returns (r: Outcome<Reply>, ordered: bool)
    requires HasOrg(network, org)
    requires |commitEvents| == |ResolvePeerNames(network[org].peers, ListenPeers(peerNames, channelPeers))|
    ensures r == Returned(InvokeSucceeded(txId)) <==>
      identity.Returned? && answer.Some? && EndorsementsGood(answer.value) && FirstResponseReadable(answer.value, true) &&
      send == Broadcast(SuccessStatus) && AllCommitted(commitEvents)
    ensures ordered <==>
      identity.Returned? && answer.Some? && EndorsementsGood(answer.value) && FirstResponseReadable(answer.value, true)
    ensures ordered && (send.BroadcastRejected? || SomeCommitRejected(commitEvents)) ==>
      r == Returned(Failure(CommitTimeout))
    ensures ordered && send.Broadcast? && send.status != SuccessStatus && AllCommitted(commitEvents) ==>
      r == Returned(Failure(OrderFailedPrefix + send.status))
    ensures identity.Returned? && answer.Some? && !EndorsementsGood(answer.value) ==>
      r == Returned(Failure(ProposalFailed))
    ensures r.Returned? && r.value.success ==> r.value.transactionID == Some(txId)
    // A listener still pending, with nothing rejected, leaves the call
    // waiting, as does an identity lookup still pending.
    ensures ordered && send.Broadcast? && !SomeCommitRejected(commitEvents) && !AllCommitted(commitEvents) ==>
      r == Waiting
    ensures identity.Waiting? ==> r == Waiting
    // A throwing user lookup propagates; a rejected proposal and an empty or
    // unreadable first response throw; nothing else does.
    ensures r.Threw? <==>
      identity.Threw? ||
      (identity.Returned? && (answer.None? ||
                              (EndorsementsGood(answer.value) && !FirstResponseReadable(answer.value, true))))
    ensures identity.Threw? ==> r == Threw(identity.cause)
  {
    ordered := false;
    if !identity.Returned? {
      r := if identity.Threw? then Threw(identity.cause) else Waiting;
      return;
    }
    if answer.None? {
      return Threw("sendTransactionProposal rejected"), false;
    }
    var proposalResponses := answer.value;
    var allGood := AllGood(proposalResponses);
    if !allGood {
      return Returned(Failure(ProposalFailed)), false;
    }
    if |proposalResponses| == 0 || proposalResponses[0].endorsement.None? {
      return Threw("TypeError: reading proposalResponses[0]"), false;
    }
    var names := ListenPeers(peerNames, channelPeers);
    var eventhubs := NewRemotes(network, names, false, org);
    // Promise.all over the orderer submission and one listener per hub.
    var settlements := [if send.Broadcast? then Resolved else Rejected];
    var k := 0;
    while k < |eventhubs|
      invariant 0 <= k <= |eventhubs|
      invariant |settlements| == k + 1
      invariant settlements[0] == (if send.Broadcast? then Resolved else Rejected)
      invariant forall j :: 0 <= j < k ==> settlements[j + 1] == RunCommit(CommitStart, commitEvents[j]).settlement
    {
      settlements := settlements + [RunCommit(CommitStart, commitEvents[k]).settlement];
      k := k + 1;
    }
    ordered := true;
    var all := AllOf(settlements);
    assert forall j :: 0 <= j < |commitEvents| ==> settlements[j + 1] == RunCommit(CommitStart, commitEvents[j]).settlement;
    assert AllCommitted(commitEvents) <==> forall i :: 1 <= i < |settlements| ==> settlements[i] == Resolved by {
      if AllCommitted(commitEvents) {
        forall i | 1 <= i < |settlements| ensures settlements[i] == Resolved {
          assert RunCommit(CommitStart, commitEvents[i - 1]).settlement == Resolved;
        }
      }
      if forall i :: 1 <= i < |settlements| ==> settlements[i] == Resolved {
        forall j | 0 <= j < |commitEvents| ensures RunCommit(CommitStart, commitEvents[j]).settlement == Resolved {
          assert settlements[j + 1] == Resolved;
        }
      }
    }
    assert SomeCommitRejected(commitEvents) <==> exists i :: 1 <= i < |settlements| && settlements[i] == Rejected by {
      if exists i :: 1 <= i < |settlements| && settlements[i] == Rejected {
        var i :| 1 <= i < |settlements| && settlements[i] == Rejected;
        assert RunCommit(CommitStart, commitEvents[i - 1]).settlement == Rejected;
      }
    }
    if all == Rejected {
      r := Returned(Failure(CommitTimeout));
    } else if all == Pending {
      r := Waiting;
    } else if send.status == SuccessStatus {
      r := Returned(InvokeSucceeded(txId));
    } else {
      r := Returned(Failure(OrderFailedPrefix + send.status));
    }
  }

  // ---------------------------------------------------------------------
  // queryChainCode
  // ---------------------------------------------------------------------

  /** What `queryByChaincode` does: resolve with the payload array (or with
      nothing), or throw an error whose `stack` may be missing. */
  datatype QueryAnswer = Payloads(payloads: Option<seq<string>>) | QueryThrew(stack: Option<string>)

  /** The query's result rule; `None` is the `undefined` that an empty
      payload array yields. In the catch branch `'...: ' + err.stack ?
      err.stack : err` parses as `('...: ' + err.stack) ? ...`, whose test is
      always a non-empty string, so the message is the bare stack. */
  function QueryResult(answer: QueryAnswer): (r: Option<Reply>)
    ensures (r.Some? && r.value.success) <==> answer.Payloads? && answer.payloads.Some? && |answer.payloads.value| > 0
    ensures r.Some? && r.value.success ==> r.value.result == Some(answer.payloads.value[0])
    ensures r.None? <==> answer == Payloads(Some([]))
    ensures answer == Payloads(None) ==> r == Some(Failure(PayloadsNull))
    ensures answer.QueryThrew? ==> r.Some? && !r.value.success && r.value.message == answer.stack
  {
    match answer
    case QueryThrew(stack) => Some(Reply(false, stack, None, None, None))
    case Payloads(None) => Some(Failure(PayloadsNull))
    case Payloads(Some(payloads)) =>
      if |payloads| > 0 then Some(Reply(true, None, Some(payloads[0]), None, None)) else None
  }

  /** Only the first payload matters: what follows it is discarded. */
  lemma QueryUsesFirstPayloadOnly(first: string, rest1: seq<string>, rest2: seq<string>)
    ensures QueryResult(Payloads(Some([first] + rest1))) == QueryResult(Payloads(Some([first] + rest2)))
    ensures QueryResult(Payloads(Some([first] + rest1))).value.result == Some(first)
  {
  }

  /** The error message never gains the intended prefix: unless the stack
      itself starts with it, the message does not. */
  lemma QueryErrorDropsPrefix(stack: string)
    requires !StartsWith(stack, QueryErrorPrefix)
    ensures var r := QueryResult(QueryThrew(Some(stack)));
      r.Some? && r.value.message.Some? && !StartsWith(r.value.message.value, QueryErrorPrefix)
  {
  }

  /** `queryChainCode`: resolve the optional target peer, look up the user
      (its result is ignored, only an exception escapes), then apply the
      result rule to the library's answer. */
  method QueryChainCode(network: Network, org: string, peer: Option<string>, identity: Outcome<Member>,
                        answer: QueryAnswer)
    returns (r: Outcome<Option<Reply>>, target: Option<Remote>)
    requires HasOrg(network, org)
    ensures target.Some? <==> peer.Some? && peer.value in network[org].peers
    ensures identity.Threw? ==> r == Threw(identity.cause)
    ensures identity.Returned? ==> r == Returned(QueryResult(answer))
  {
    target := BuildTarget(network, peer, org);
    if !identity.Returned? {
      r := if identity.Threw? then Threw(identity.cause) else Waiting;
      return;
    }
    r := Returned(QueryResult(answer));
  }

  // ---------------------------------------------------------------------
  // joinChannel
  // ---------------------------------------------------------------------

  /** Only the first peer's join response decides success. */
  predicate JoinAccepted(results: seq<ProposalResponse>) {
    |results| > 0 && ProposalGood(results[0])
  }

  function JoinSucceeded(org: string, channelName: string): Reply {
    Reply(true, Some("Successfully joined peers in organization " + org + " to the channel '" + channelName + "'"),
          None, None, None)
  }

  predicate AllJoined(channelName: string, blockEvents: seq<seq<BlockEvent>>) {
    forall k :: 0 <= k < |blockEvents| ==> RunJoin(channelName, JoinStart, blockEvents[k]).settlement == Resolved
  }

  predicate SomeJoinRejected(channelName: string, blockEvents: seq<seq<BlockEvent>>) {
    exists k :: 0 <= k < |blockEvents| && RunJoin(channelName, JoinStart, blockEvents[k]).settlement == Rejected
  }

  /** Join the named peers of `org` to a channel. `genesisBlock` is false
      when fetching the genesis block rejects, `joinAnswer` the join
      responses (`None` when sending the join rejects), `hubs[k]` the k-th
      resolved peer's event hub and `blockEvents[k]` what its listener sees.
      Once the genesis block is fetched every hub is connected. A rejection
      makes the awaited `Promise.all` throw out of the function, so the hubs
      are then left connected; otherwise every still-connected hub is
      closed. */
  method JoinChannel(network: Network, channelName: string, peers: seq<string>, org: string,
                     genesisBlock: bool, joinAnswer: Option<seq<ProposalResponse>>, hubs: seq<EventHub>,
                     blockEvents: seq<seq<BlockEvent>>)
    returns (r: Outcome<Reply>)
    requires HasOrg(network, org)
    requires |hubs| == |blockEvents| == |ResolvePeerNames(network[org].peers, peers)|
    requires forall i, j :: 0 <= i < j < |hubs| ==> hubs[i] != hubs[j]
    modifies set h | h in hubs
    ensures (r.Returned? && r.value.success) <==>
      genesisBlock && joinAnswer.Some? && AllJoined(channelName, blockEvents) && JoinAccepted(joinAnswer.value)
    ensures r.Returned? ==> r.value == (if r.value.success then JoinSucceeded(org, channelName) else Reply(false, None, None, None, None))
    ensures r.Threw? <==> !genesisBlock || joinAnswer.None? || SomeJoinRejected(channelName, blockEvents)
    // Once every listener resolved the call returns, success or not, and
    // closes the hubs; it stays pending only while some listener does.
    ensures r.Returned? <==> genesisBlock && joinAnswer.Some? && AllJoined(channelName, blockEvents)
    ensures !genesisBlock ==> forall i :: 0 <= i < |hubs| ==>
      hubs[i].connected == old(hubs[i].connected) && hubs[i].disconnects == old(hubs[i].disconnects)
    ensures r.Returned? ==> forall i :: 0 <= i < |hubs| ==>
      !hubs[i].connected && hubs[i].disconnects == old(hubs[i].disconnects) + 1
    ensures genesisBlock && !r.Returned? ==> forall i :: 0 <= i < |hubs| ==>
      hubs[i].connected && hubs[i].disconnects == old(hubs[i].disconnects)
  {
    if !genesisBlock {
      return Threw("getGenesisBlock rejected");
    }
    var c := 0;
    while c < |hubs|
      invariant 0 <= c <= |hubs|
      invariant forall i :: 0 <= i < c ==> hubs[i].connected
      invariant forall i :: c <= i < |hubs| ==> hubs[i].connected == old(hubs[i].connected)
      invariant forall i :: 0 <= i < |hubs| ==> hubs[i].disconnects == old(hubs[i].disconnects)
    {
      hubs[c].Connect();
      c := c + 1;
    }
    var settlements := [if joinAnswer.Some? then Resolved else Rejected];
    var k := 0;
    while k < |hubs|
      invariant 0 <= k <= |hubs|
      invariant |settlements| == k + 1
      invariant settlements[0] == (if joinAnswer.Some? then Resolved else Rejected)
      invariant forall j :: 0 <= j < k ==> settlements[j + 1] == RunJoin(channelName, JoinStart, blockEvents[j]).settlement
    {
      settlements := settlements + [RunJoin(channelName, JoinStart, blockEvents[k]).settlement];
      k := k + 1;
    }
    var all := AllOf(settlements);
    assert forall j :: 0 <= j < |blockEvents| ==> settlements[j + 1] == RunJoin(channelName, JoinStart, blockEvents[j]).settlement;
    assert AllJoined(channelName, blockEvents) <==> forall i :: 1 <= i < |settlements| ==> settlements[i] == Resolved by {
      if AllJoined(channelName, blockEvents) {
        forall i | 1 <= i < |settlements| ensures settlements[i] == Resolved {
          assert RunJoin(channelName, JoinStart, blockEvents[i - 1]).settlement == Resolved;
        }
      }
      if forall i :: 1 <= i < |settlements| ==> settlements[i] == Resolved {
        forall j | 0 <= j < |blockEvents| ensures RunJoin(channelName, JoinStart, blockEvents[j]).settlement == Resolved {
          assert settlements[j + 1] == Resolved;
        }
      }
    }
    assert SomeJoinRejected(channelName, blockEvents) <==> exists i :: 1 <= i < |settlements| && settlements[i] == Rejected by {
      if exists i :: 1 <= i < |settlements| && settlements[i] == Rejected {
        var i :| 1 <= i < |settlements| && settlements[i] == Rejected;
        assert RunJoin(channelName, JoinStart, blockEvents[i - 1]).settlement == Rejected;
      }
    }
    if all == Rejected {
      return Threw("join listener or join request rejected");
    } else if all == Pending {
      return Waiting;
    }
    if JoinAccepted(joinAnswer.value) {
      CloseConnections(hubs);
      return Returned(JoinSucceeded(org, channelName));
    }
    CloseConnections(hubs);
    return Returned(Reply(false, None, None, None, None));
  }
}
