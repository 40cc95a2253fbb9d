/** The provisioning part of `PrivateNetwork.create_by_config` (k8s/main.py:228-262):
    from the topology graph to the cluster objects it asks for and the first
    version of the graph document. */
module Provision {

  import opened Text

  /** The topology `config["graph"]`: entry i is `graph[i]["eth"]`, the number
      of geth appchains relay node i anchors. */
  type Graph = seq<nat>

  /** `sum(p["eth"] for p in graph)`. */
  function Sum(g: Graph): nat {
    if g == [] then 0 else Sum(g[..|g| - 1]) + g[|g| - 1]
  }

  /** Relay pod i is called `bitxhub-i`. */
  function RelayName(i: nat): string {
    "bitxhub-" + NatToString(i)
  }

  /** Relay pod i is started with, and recorded under, the id `123i`. */
  function RelayId(i: nat): string {
    "123" + NatToString(i)
  }

  /** The fields of `k8s/pod-bitxhub.yaml` the loop overwrites. */
  datatype RelayPod = RelayPod(name: string, containerName: string, args: seq<string>)

  /** The cluster objects asked for, in request order. */
  datatype Request =
    | CreateNamespace(name: string)
    | CreateService
    | CreateGethDeployment(replicas: nat)
    | CreateRelayPod(pod: RelayPod)

  /** The entry `d['bitxhub-i'] = {'bitxhubId': '123i'}` of the graph document
      before the partition fills in addresses. */
  datatype Seed = Seed(name: string, bitxhubId: string)

  /** What the loop asks for relay node i. */
  function RelayPodFor(i: nat): (p: RelayPod)
    ensures p.name == p.containerName == RelayName(i)
    ensures p.args == [RelayId(i)]
  {
    RelayPod(RelayName(i), RelayName(i), [RelayId(i)])
  }

  /** The provisioning requests and the seeded graph document: a namespace, a
      service, one geth deployment with one replica per appchain of the whole
      topology, then one relay pod per graph entry, in index order. */
  method ProvisionPlan(namespace: string, graph: Graph)
    returns (requests: seq<Request>, seeds: seq<Seed>)
    ensures |requests| == 3 + |graph|
    ensures requests[..3] == [CreateNamespace(namespace), CreateService, CreateGethDeployment(Sum(graph))]
    ensures forall i :: 0 <= i < |graph| ==> requests[3 + i] == CreateRelayPod(RelayPodFor(i))
    ensures |seeds| == |graph|
    ensures forall i :: 0 <= i < |graph| ==> seeds[i] == Seed(RelayName(i), RelayId(i))
  {
    requests := [CreateNamespace(namespace), CreateService];
    var bitxhubReplicas := |graph|;
    var ethReplicas := Sum(graph);
    requests := requests + [CreateGethDeployment(ethReplicas)];
    seeds := [];
    var i := 0;
    while i < bitxhubReplicas
      invariant 0 <= i <= bitxhubReplicas
      invariant |requests| == 3 + i && |seeds| == i
      invariant requests[..3] == [CreateNamespace(namespace), CreateService, CreateGethDeployment(ethReplicas)]
      invariant forall k :: 0 <= k < i ==> requests[3 + k] == CreateRelayPod(RelayPodFor(k))
      invariant forall k :: 0 <= k < i ==> seeds[k] == Seed(RelayName(k), RelayId(k))
    {
      var name := "bitxhub-" + NatToString(i);
      var pod := RelayPod(name, name, ["123" + NatToString(i)]);
      requests := requests + [CreateRelayPod(pod)];
      seeds := seeds + [Seed(name, "123" + NatToString(i))];
      i := i + 1;
    }
  }

  /** Distinct relay indices give distinct pod names and distinct relay ids. */
  lemma RelayNamesDistinct(i: nat, j: nat)
    requires i != j
    ensures RelayName(i) != RelayName(j)
    ensures RelayId(i) != RelayId(j)
  {
    if RelayName(i) == RelayName(j) { PrefixedNumeralInjective("bitxhub-", i, j); }
    if RelayId(i) == RelayId(j) { PrefixedNumeralInjective("123", i, j); }
  }

  /** The replica count grows with the graph: a prefix never needs more
      chains than the whole. */
  lemma {:induction false} SumPrefix(g: Graph, i: nat)
    requires i <= |g|
    ensures Sum(g[..i]) <= Sum(g)
    decreases |g| - i
  {
    if i < |g| {
      var h := g[..|g| - 1];
      assert h[..i] == g[..i];
      SumPrefix(h, i);
      assert g[..|g|] == g;
    } else {
      assert g[..i] == g;
    }
  }

  /** One more graph entry adds its own chain count. */
  lemma SumSnoc(g: Graph, i: nat)
    requires i < |g|
    ensures Sum(g[..i + 1]) == Sum(g[..i]) + g[i]
  {
    assert g[..i + 1][..i] == g[..i];
  }
}
