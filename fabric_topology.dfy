/** The dashboard's view of the network configuration: organizations with
    their peers, plus the per-call assembly of client handles and the
    resolution of caller-supplied peer names against the topology. */
module FabricTopology {
  import opened Common

  datatype PeerConfig = PeerConfig(requests: string, events: string, serverHostname: string)

  /** One top-level key of the network configuration object: an
      organization (`org1`, `org2`, ...) or the shared orderer. */
  datatype NetworkEntry =
    | OrgEntry(name: string, mspid: string, ca: string, peers: map<string, PeerConfig>)
    | OrdererEntry(url: string, serverHostname: string)

  type Network = map<string, NetworkEntry>

  predicate HasOrg(network: Network, org: string) {
    org in network && network[org].OrgEntry?
  }

  function GetOrgName(network: Network, org: string): string
    requires HasOrg(network, org)
  {
    network[org].name
  }

  function GetMspID(network: Network, org: string): string
    requires HasOrg(network, org)
  {
    network[org].mspid
  }

  /** `getKeyStoreForOrg`: the per-organization key-value store directory. */
  function GetKeyStoreForOrg(keyValueStore: string, org: string): string {
    keyValueStore + "/" + org
  }

  /** Two organizations never share a key-value store under the same root. */
  lemma KeyStoreForOrgInjective(keyValueStore: string, org1: string, org2: string)
    requires GetKeyStoreForOrg(keyValueStore, org1) == GetKeyStoreForOrg(keyValueStore, org2)
    ensures org1 == org2
  {
    var n := |keyValueStore| + 1;
    assert org1 == GetKeyStoreForOrg(keyValueStore, org1)[n..];
    assert org2 == GetKeyStoreForOrg(keyValueStore, org2)[n..];
  }

  // ---------------------------------------------------------------------
  // Peer-name resolution (`newRemotes`, `newPeers`, `newEventHubs`)
  // ---------------------------------------------------------------------

  datatype RemoteKind = PeerRemote | EventHubRemote

  /** A peer endpoint or an event hub built from a peer's configuration.
      `peerName` is the topology key it was resolved from. */
  datatype Remote = Remote(kind: RemoteKind, peerName: string, address: string, serverHostname: string)

  function RemoteFor(peers: map<string, PeerConfig>, name: string, forPeers: bool): Remote
    requires name in peers
  {
    if forPeers then Remote(PeerRemote, name, peers[name].requests, peers[name].serverHostname)
    else Remote(EventHubRemote, name, peers[name].events, peers[name].serverHostname)
  }

  /** The caller's names that the organization knows, in the caller's order. */
  function ResolvePeerNames(peers: map<string, PeerConfig>, names: seq<string>): (found: seq<string>)
    ensures |found| <= |names|
    ensures forall i :: 0 <= i < |found| ==> found[i] in peers
  {
    if names == [] then []
    else
      var last := names[|names| - 1];
      ResolvePeerNames(peers, names[..|names| - 1]) + (if last in peers then [last] else [])
  }

  /** A name survives resolution exactly when the caller gave it and the
      organization has a peer of that name. */
  lemma {:induction false} ResolveMembership(peers: map<string, PeerConfig>, names: seq<string>, n: string)
    ensures n in ResolvePeerNames(peers, names) <==> n in names && n in peers
  {
    if names != [] {
      var init := names[..|names| - 1];
      ResolveMembership(peers, init, n);
      assert names == init + [names[|names| - 1]];
    }
  }

  /** Resolution drops nothing when every name is known, so the caller's
      list comes back unchanged. */
  lemma {:induction false} ResolveKnownNames(peers: map<string, PeerConfig>, names: seq<string>)
    requires forall i :: 0 <= i < |names| ==> names[i] in peers
    ensures ResolvePeerNames(peers, names) == names
  {
    if names != [] {
      ResolveKnownNames(peers, names[..|names| - 1]);
    }
  }

  /** Resolution keeps the caller's order: the result is the concatenation
      of the resolutions of any split of the input. */
  lemma {:induction false} ResolveDistributes(peers: map<string, PeerConfig>, xs: seq<string>, ys: seq<string>)
    ensures ResolvePeerNames(peers, xs + ys) == ResolvePeerNames(peers, xs) + ResolvePeerNames(peers, ys)
    decreases |ys|
  {
    if ys == [] {
      assert xs + ys == xs;
    } else {
      var zs := xs + ys;
      assert zs[..|zs| - 1] == xs + ys[..|ys| - 1];
      ResolveDistributes(peers, xs, ys[..|ys| - 1]);
    }
  }

  /** `newRemotes`: one remote per known name, in the caller's order;
      unknown names are dropped and an empty result is not an error. */
  method NewRemotes(network: Network, names: seq<string>, forPeers: bool, userOrg: string)
    returns (targets: seq<Remote>)
    requires HasOrg(network, userOrg)
    ensures var found := ResolvePeerNames(network[userOrg].peers, names);
      |targets| == |found| &&
      forall i :: 0 <= i < |found| ==> targets[i] == RemoteFor(network[userOrg].peers, found[i], forPeers)
  {
    var peers := network[userOrg].peers;
    targets := [];
    var idx := 0;
    while idx < |names|
      invariant 0 <= idx <= |names|
      invariant var found := ResolvePeerNames(peers, names[..idx]);
        |targets| == |found| &&
        forall i :: 0 <= i < |found| ==> targets[i] == RemoteFor(peers, found[i], forPeers)
    {
      var peerName := names[idx];
      assert names[..idx + 1][..idx] == names[..idx];
      if peerName in peers {
        targets := targets + [RemoteFor(peers, peerName, forPeers)];
      }
      idx := idx + 1;
    }
    assert names[..|names|] == names;
  }

  /** `buildTarget`: the single query target for an optional peer name. */
  method BuildTarget(network: Network, peer: Option<string>, org: string) returns (target: Option<Remote>)
    requires HasOrg(network, org)
    ensures target.Some? <==> peer.Some? && peer.value in network[org].peers
    ensures target.Some? ==> target.value == RemoteFor(network[org].peers, peer.value, true)
  {
    target := None;
    if peer.Some? {
      var targets := NewRemotes(network, [peer.value], true, org);
      assert [peer.value][..0] == [];
      if |targets| > 0 {
        target := Some(targets[0]);
      }
    }
  }

  // ---------------------------------------------------------------------
  // Per-call handle assembly (`fabricHelper`)
  // ---------------------------------------------------------------------

  const ChannelName := "mychannel"

  /** The client, channel and CA client built for one organization: the
      client's crypto key store, the channel's name and peers, the CA URL. */
  datatype OrgHandles = OrgHandles(keyStorePath: string, channelName: string,
                                   channelPeers: set<string>, caUrl: string)

  predicate IsOrgKey(key: string) {
    StartsWith(key, "org")
  }

  function HandlesFor(network: Network, keyValueStore: string, key: string): OrgHandles
    requires HasOrg(network, key)
  {
    OrgHandles(GetKeyStoreForOrg(keyValueStore, network[key].name), ChannelName,
               network[key].peers.Keys, network[key].ca)
  }

  /** `fabricHelper`: handles for exactly the configuration keys that start
      with `org`; every channel is `mychannel` and carries all the
      organization's peers. */
  method FabricHelper(network: Network, keyValueStore: string) returns (handles: map<string, OrgHandles>)
    requires forall key :: key in network && IsOrgKey(key) ==> network[key].OrgEntry?
    ensures handles.Keys == set key | key in network && IsOrgKey(key)
    ensures forall key :: key in handles ==> HasOrg(network, key) && handles[key] == HandlesFor(network, keyValueStore, key)
  {
    handles := map[];
    var remaining := network.Keys;
    while remaining != {}
      invariant remaining <= network.Keys
      invariant handles.Keys == set key | key in network && key !in remaining && IsOrgKey(key)
      invariant forall key :: key in handles ==> HasOrg(network, key) && handles[key] == HandlesFor(network, keyValueStore, key)
      decreases |remaining|
    {
      var key :| key in remaining;
      if IsOrgKey(key) {
        handles := handles[key := HandlesFor(network, keyValueStore, key)];
      }
      remaining := remaining - {key};
    }
  }
}
