/** The resolving part of `PrivateNetwork.create_by_config` (k8s/main.py:264-303):
    once both pod listings report an IP for every pod, the geth pool is shared
    out over the relay nodes front to back and the graph document
    `graph_<ns>.json` is written. */
module Resolve {

  import opened Outcome
  import opened Text
  import opened Provision
  import PodListing

  /** One entry of `graph_<ns>.json`, keyed by `name`. The document is an
      ordered list: later phases number piers and appchains in this order. */
  datatype RelayNode = RelayNode(name: string, bitxhubId: string, bitxhubIp: string,
                                 chainNameList: seq<string>, chainIpList: seq<string>,
                                 pierPrefixName: string)

  /** Where relay node i's share of the geth pool starts. */
  function Offset(graph: Graph, i: nat): (o: nat)
    requires i <= |graph|
    ensures o <= Sum(graph)
  {
    SumPrefix(graph, i);
    Sum(graph[..i])
  }

  lemma OffsetStep(graph: Graph, i: nat)
    requires i < |graph|
    ensures Offset(graph, i + 1) == Offset(graph, i) + graph[i]
    ensures Offset(graph, i + 1) <= Sum(graph)
  {
    SumSnoc(graph, i);
    SumPrefix(graph, i + 1);
  }

  /** The entry relay node i gets: its own relay IP by position, the next
      `graph[i]` geth names and IPs from the front of the pools, and the pier
      prefix `pier-i`. */
  function NodeAt(graph: Graph, seeds: seq<Seed>, relayIps: seq<string>,
                  names: seq<string>, ips: seq<string>, i: nat): (r: RelayNode)
    requires |seeds| == |graph| && i < |graph| && i < |relayIps|
    requires Sum(graph) <= |names| && Sum(graph) <= |ips|
    ensures r.name == seeds[i].name && r.bitxhubId == seeds[i].bitxhubId && r.bitxhubIp == relayIps[i]
    ensures Offset(graph, i) + graph[i] <= Sum(graph)
    ensures |r.chainNameList| == |r.chainIpList| == graph[i]
    ensures forall k :: 0 <= k < graph[i] ==>
      r.chainNameList[k] == names[Offset(graph, i) + k] && r.chainIpList[k] == ips[Offset(graph, i) + k]
    ensures r.pierPrefixName == "pier-" + NatToString(i)
  {
    OffsetStep(graph, i);
    var lo, hi := Offset(graph, i), Offset(graph, i + 1);
    RelayNode(seeds[i].name, seeds[i].bitxhubId, relayIps[i],
              names[lo..hi], ips[lo..hi], "pier-" + NatToString(i))
  }

  /** The partition loop (k8s/main.py:290-301). `pop(0)` on an exhausted pool
      and `bitxhubIpList[i]` past its end raise IndexError, and then no graph
      document is written. */
  method Partition(graph: Graph, seeds: seq<Seed>, relayIps: seq<string>,
                   names: seq<string>, ips: seq<string>)
    returns (r: Result<seq<RelayNode>>)
    requires |seeds| == |graph|
    ensures r.Ok? <==> |graph| <= |relayIps| && Sum(graph) <= |names| && Sum(graph) <= |ips|
    ensures r.Raise? ==> r.exc == IndexError
    ensures r.Ok? ==>
      && |r.value| == |graph|
      && forall i :: 0 <= i < |graph| ==> r.value[i] == NodeAt(graph, seeds, relayIps, names, ips, i)
  {
    var d: seq<RelayNode> := [];
    var ethNameList, ethIpList := names, ips;
    var i := 0;
    while i < |graph|
      invariant 0 <= i <= |graph| && |d| == i
      invariant Offset(graph, i) <= |names| && Offset(graph, i) <= |ips|
      invariant ethNameList == names[Offset(graph, i)..] && ethIpList == ips[Offset(graph, i)..]
      invariant i <= |relayIps|
      invariant Sum(graph) <= |names| && Sum(graph) <= |ips| && |graph| <= |relayIps| ==>
        forall k :: 0 <= k < i ==> d[k] == NodeAt(graph, seeds, relayIps, names, ips, k)
    {
      OffsetStep(graph, i);
      if i >= |relayIps| {
        return Raise(IndexError);
      }
      var bitxhubIp := relayIps[i];
      var fetch := graph[i];
      ghost var lo := Offset(graph, i);
      var ok, chainNames, chainIps;
      ok, chainNames, chainIps, ethNameList, ethIpList := PopChains(ethNameList, ethIpList, fetch);
      if !ok {
        return Raise(IndexError);
      }
      assert names[lo..][..fetch] == names[lo..lo + fetch] && names[lo..][fetch..] == names[lo + fetch..];
      assert ips[lo..][..fetch] == ips[lo..lo + fetch] && ips[lo..][fetch..] == ips[lo + fetch..];
      d := d + [RelayNode(seeds[i].name, seeds[i].bitxhubId, bitxhubIp,
                          chainNames, chainIps, "pier-" + NatToString(i))];
      i := i + 1;
    }
    assert graph[..|graph|] == graph;
    return Ok(d);
  }

  /** The inner loop of the partition: `fetch` names and IPs popped from the
      front of the two pools, a name before each IP; an exhausted pool raises
      IndexError. */
  method PopChains(ethNameList0: seq<string>, ethIpList0: seq<string>, fetch: nat)
    returns (ok: bool, chainNames: seq<string>, chainIps: seq<string>,
             ethNameList: seq<string>, ethIpList: seq<string>)
    ensures ok <==> fetch <= |ethNameList0| && fetch <= |ethIpList0|
    ensures ok ==> chainNames == ethNameList0[..fetch] && ethNameList == ethNameList0[fetch..]
    ensures ok ==> chainIps == ethIpList0[..fetch] && ethIpList == ethIpList0[fetch..]
  {
    ethNameList, ethIpList := ethNameList0, ethIpList0;
    chainIps, chainNames := [], [];
    var j := 0;
    while j < fetch
      invariant 0 <= j <= fetch && j <= |ethNameList0| && j <= |ethIpList0|
      invariant ethNameList == ethNameList0[j..] && ethIpList == ethIpList0[j..]
      invariant chainNames == ethNameList0[..j] && chainIps == ethIpList0[..j]
    {
      if ethNameList == [] {
        return false, chainNames, chainIps, ethNameList, ethIpList;
      }
      chainNames := chainNames + [ethNameList[0]];
      ethNameList := ethNameList[1..];
      if ethIpList == [] {
        return false, chainNames, chainIps, ethNameList, ethIpList;
      }
      chainIps := chainIps + [ethIpList[0]];
      ethIpList := ethIpList[1..];
      j := j + 1;
    }
    return true, chainNames, chainIps, ethNameList, ethIpList;
  }

  /** All geth IPs handed out, relay node after relay node. */
  function ChainIps(doc: seq<RelayNode>): seq<string> {
    if doc == [] then [] else ChainIps(doc[..|doc| - 1]) + doc[|doc| - 1].chainIpList
  }

  /** All geth pod names handed out, relay node after relay node. */
  function ChainNames(doc: seq<RelayNode>): seq<string> {
    if doc == [] then [] else ChainNames(doc[..|doc| - 1]) + doc[|doc| - 1].chainNameList
  }

  /** The partition neither drops nor repeats anything: reading the relay
      nodes' chain lists in order gives back the first `Sum(graph)` pool
      entries, for IPs and for names alike, so every geth pod stays paired with
      its IP. */
  lemma {:induction false} PartitionCoversPool(graph: Graph, seeds: seq<Seed>, relayIps: seq<string>,
                                               names: seq<string>, ips: seq<string>,
                                               doc: seq<RelayNode>, n: nat)
    requires |seeds| == |graph| && |graph| <= |relayIps|
    requires Sum(graph) <= |names| && Sum(graph) <= |ips|
    requires n <= |graph| == |doc|
    requires forall i :: 0 <= i < |graph| ==> doc[i] == NodeAt(graph, seeds, relayIps, names, ips, i)
    ensures Offset(graph, n) <= Sum(graph)
    ensures ChainIps(doc[..n]) == ips[..Offset(graph, n)]
    ensures ChainNames(doc[..n]) == names[..Offset(graph, n)]
  {
    if n == 0 {
      assert doc[..0] == [];
    } else {
      PartitionCoversPool(graph, seeds, relayIps, names, ips, doc, n - 1);
      OffsetStep(graph, n - 1);
      var lo, hi := Offset(graph, n - 1), Offset(graph, n);
      assert doc[..n][..n - 1] == doc[..n - 1];
      assert doc[n - 1].chainIpList == ips[lo..hi];
      assert ips[..lo] + ips[lo..hi] == ips[..hi];
      assert names[..lo] + names[lo..hi] == names[..hi];
    }
  }

  /** What one `create_by_config` run leaves behind: the graph document, or
      the fact that a poll still saw a pod without an IP (the script sleeps and
      polls again), or the exception that ended it. */
  datatype Resolution = Written(doc: seq<RelayNode>) | StillStarting | Failed(exc: Exc)

  /** `create_by_config` from the provisioning requests to the graph document,
      given the output of the relay poll and of the geth poll that the script
      reads. */
  method CreateByConfig(namespace: string, graph: Graph, relayOut: string, gethOut: string)
    returns (requests: seq<Request>, res: Resolution)
    ensures |requests| == 3 + |graph| && requests[2] == CreateGethDeployment(Sum(graph))
    ensures res.Written? <==>
      && PodListing.PollOnce(relayOut).Resolved?
      && PodListing.PollOnce(gethOut).Resolved?
      && |graph| <= |PodListing.PollOnce(relayOut).listing.ips|
      && Sum(graph) <= |PodListing.PollOnce(gethOut).listing.ips|
    ensures res.Written? ==>
      var relays := PodListing.PollOnce(relayOut).listing;
      var geth := PodListing.PollOnce(gethOut).listing;
      && |res.doc| == |graph|
      && forall i :: 0 <= i < |graph| ==>
           res.doc[i] == NodeAt(graph, Seeds(graph), relays.ips, geth.names, geth.ips, i)
  {
    var seeds;
    requests, seeds := ProvisionPlan(namespace, graph);
    assert seeds == Seeds(graph);
    match PodListing.PollOnce(relayOut)
    case Failed(e) => return requests, Failed(e);
    case Waiting => return requests, StillStarting;
    case Resolved(relays) =>
      match PodListing.PollOnce(gethOut)
      case Failed(e) => return requests, Failed(e);
      case Waiting => return requests, StillStarting;
      case Resolved(geth) =>
        var r := Partition(graph, seeds, relays.ips, geth.names, geth.ips);
        match r
        case Raise(e) => return requests, Failed(e);
        case Ok(doc) => return requests, Written(doc);
  }

  /** The seeded graph document the provisioning loop builds. */
  function Seeds(graph: Graph): (s: seq<Seed>)
    ensures |s| == |graph|
  {
    seq(|graph|, i requires 0 <= i < |graph| => Seed(RelayName(i), RelayId(i)))
  }
}
