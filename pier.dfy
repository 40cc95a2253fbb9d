/** `PrivateNetwork.create_deployment_pier` (k8s/main.py:364-487): for every
    geth appchain of the graph document, in document order, prepare a pier
    working directory under the configured base, rewrite its two TOML files
    from `deploy_<ns>.json`, copy it to every worker node but the control
    node, and ask for a pier pod mounting it; `pier_<ns>.json` is written only
    when every chain went through. */
module Pier {

  import opened Outcome
  import opened Text
  import opened Bundle
  import PodListing
  import Resolve
  import Deploy
  import ContractTool

  /** The keys of the pier configuration file the function uses. */
  datatype PierConfig = PierConfig(base: string, pier: string, plugins: string, ether: string,
                                   passwd: string, user: string)

  /** Chain j of relay node i, with what the loop reads from the graph
      document for it. */
  datatype Slot = Slot(i: nat, j: nat, bitxhubName: string, bitxhubIp: string, ethIp: string)

  /** The chains of relay node i, in `chainIpList` order. */
  function SlotsOf(node: Resolve.RelayNode, i: nat): (ss: seq<Slot>)
    ensures |ss| == |node.chainIpList|
    ensures forall j :: 0 <= j < |ss| ==> ss[j] == Slot(i, j, node.name, node.bitxhubIp, node.chainIpList[j])
  {
    seq(|node.chainIpList|, j requires 0 <= j < |node.chainIpList| =>
      Slot(i, j, node.name, node.bitxhubIp, node.chainIpList[j]))
  }

  /** The chains of the whole document, relay node after relay node. */
  function Slots(doc: seq<Resolve.RelayNode>): seq<Slot> {
    if doc == [] then [] else Slots(doc[..|doc| - 1]) + SlotsOf(doc[|doc| - 1], |doc| - 1)
  }

  /** The name of the pier pod, of its volume, and of its `pier_<ns>.json`
      entry. */
  function PierName(i: nat, j: nat): string {
    "pier-" + NatToString(i) + "-" + NatToString(j)
  }

  /** The working directory of chain j of relay node i: the two indices are
      written next to each other with no separator. */
  function MountDir(base: string, i: nat, j: nat): string {
    PathJoin(base, "mount_pier" + NatToString(i) + NatToString(j))
  }

  /** The working directory lies under the base directory and its last
      component is `mount_pier<i><j>`. */
  lemma MountDirShape(base: string, i: nat, j: nat)
    ensures base <= MountDir(base, i, j)
    ensures var d, leaf := MountDir(base, i, j), "mount_pier" + NatToString(i) + NatToString(j);
      |leaf| <= |d| && d[|d| - |leaf|..] == leaf
  {
    var leaf := "mount_pier" + NatToString(i) + NatToString(j);
    PathJoinShape(base, leaf);
  }

  const InitArgs: string := " init relay"
  const ControlNode: string := "10.206.0.7"
  const PierMountPath: string := "/root/.pier"

  /** Empty the working directory, initialise a relay-mode pier repository in
      it, and copy the plugins and the ether configuration into it. */
  function PrepCmds(cfg: PierConfig, mount: string): (cs: seq<string>)
    ensures |cs| == 3
    ensures cs[0] == "rm -rf " + mount
  {
    ["rm -rf " + mount,
     "mkdir -p " + mount + " && " + cfg.pier + " --repo=" + mount + InitArgs,
     "cp -r " + cfg.plugins + " " + PathJoin(mount, "plugins") + " && cp -r " + cfg.ether + " " + PathJoin(mount, "ether")]
  }

  /** The copy of the working directory to one worker node. */
  function ScpCmd(cfg: PierConfig, mount: string, nodeIp: string): string {
    "sshpass -p " + cfg.passwd + " scp -r " + mount + " " + cfg.user + "@" + nodeIp + ":" + cfg.base
  }

  /** The copy logs in with the configured password and ends with its target,
      the base directory on the node. */
  lemma ScpCmdShape(cfg: PierConfig, mount: string, nodeIp: string)
    ensures "sshpass -p " <= ScpCmd(cfg, mount, nodeIp)
    ensures var c, target := ScpCmd(cfg, mount, nodeIp), cfg.user + "@" + nodeIp + ":" + cfg.base;
      |target| <= |c| && c[|c| - |target|..] == target
  {
    var target := cfg.user + "@" + nodeIp + ":" + cfg.base;
    var head := "sshpass -p " + cfg.passwd + " scp -r " + mount + " ";
    assert ScpCmd(cfg, mount, nodeIp) == head + target;
  }

  /** The worker nodes the working directory is copied to, in listing order:
      every node but the control node. */
  function ScpHosts(nodeIps: seq<string>): (hs: seq<string>)
    ensures |hs| <= |nodeIps|
    ensures forall h :: h in hs <==> h in nodeIps && h != ControlNode
  {
    if nodeIps == [] then []
    else
      var rest := ScpHosts(nodeIps[..|nodeIps| - 1]);
      var last := nodeIps[|nodeIps| - 1];
      assert nodeIps == nodeIps[..|nodeIps| - 1] + [last];
      if last == ControlNode then rest else rest + [last]
  }

  /** The copy targets keep the listing's order: a single node is kept
      unless it is the control node, and the selection distributes over
      concatenation. */
  lemma {:induction false} ScpHostsIsFilter(a: seq<string>, b: seq<string>, ip: string)
    ensures ScpHosts(a + b) == ScpHosts(a) + ScpHosts(b)
    ensures ScpHosts([ip]) == if ip == ControlNode then [] else [ip]
    decreases |b|
  {
    assert [ip][..0] == [];
    if b == [] {
      assert a + b == a;
    } else {
      var init := b[..|b| - 1];
      assert (a + b)[..|a + b| - 1] == a + init;
      assert (a + b)[|a + b| - 1] == b[|b| - 1];
      ScpHostsIsFilter(a, init, ip);
    }
  }

  /** One copy command per target node, in order. */
  function ScpCmds(cfg: PierConfig, mount: string, nodeIps: seq<string>): (cs: seq<string>)
    ensures var hs := ScpHosts(nodeIps);
      |cs| == |hs| && forall k :: 0 <= k < |hs| ==> cs[k] == ScpCmd(cfg, mount, hs[k])
  {
    var hs := ScpHosts(nodeIps);
    seq(|hs|, k requires 0 <= k < |hs| => ScpCmd(cfg, mount, hs[k]))
  }

  /** The fields of `k8s/deployment-pier.yaml` the loop overwrites. */
  datatype PierPod = PierPod(name: string, mountName: string, mountPath: string,
                             volumeName: string, hostPath: string, hostType: string,
                             containerName: string)

  /** The pod for one chain: named after its slot, mounting the working
      directory at `/root/.pier`; the container is named after j only. */
  function PodFor(s: Slot, mount: string): (p: PierPod)
    ensures p.name == p.mountName == p.volumeName == PierName(s.i, s.j)
    ensures p.hostPath == mount && p.mountPath == PierMountPath && p.hostType == "Directory"
    ensures p.containerName == PierName(0, s.j)
  {
    var name := PierName(s.i, s.j);
    PierPod(name, name, PierMountPath, name, mount, "Directory", "pier-0-" + NatToString(s.j))
  }

  /** An entry of `pier_<ns>.json`. */
  datatype PierEntry = PierEntry(bitxhubName: string, appchainId: string, appchainName: string,
                                 appchainType: string, appchainIp: string)

  /** The entry names the appchain after its two indices run together, as
      the working directory does. */
  function EntryFor(s: Slot, dep: Deploy.Deployment): (e: PierEntry)
    ensures e.bitxhubName == s.bitxhubName && e.appchainIp == s.ethIp
    ensures e.appchainId == dep.id && e.appchainType == "ETH"
    ensures "eth" <= e.appchainName && e.appchainName[3..] == NatToString(s.i) + NatToString(s.j)
  {
    PierEntry(s.bitxhubName, dep.id, "eth" + NatToString(s.i) + NatToString(s.j), "ETH", s.ethIp)
  }

  /** What the loop reads but never changes: the configuration, the worker
      node IPs, `deploy_<ns>.json`, the `pier.toml` that `pier init` creates
      and the `ethereum.toml` of the configured ether directory. */
  datatype Env = Env(cfg: PierConfig, nodeIps: seq<string>, deployDoc: map<string, Deploy.Deployment>,
                     pierToml: Toml, etherToml: Toml)

  datatype Status = Running | Raised(exc: Exc)

  /** The state of the loop: the command lines run, the TOML files written
      (by path, the last write winning), the pods asked for, the pier
      document built so far, and whether an exception has ended the loop. */
  datatype State = State(cmds: seq<string>, files: map<string, Toml>, pods: seq<PierPod>,
                         doc: map<string, PierEntry>, status: Status)

  /** The files and document entries one deployed chain adds. */
  function Configure(st: State, s: Slot, env: Env): (r: State)
    requires s.ethIp in env.deployDoc
    ensures r.status == Running
    ensures st.cmds <= r.cmds
    ensures r.pods == st.pods + [PodFor(s, MountDir(env.cfg.base, s.i, s.j))]
    ensures r.doc.Keys == st.doc.Keys + {PierName(s.i, s.j)}
    ensures r.doc[PierName(s.i, s.j)] == EntryFor(s, env.deployDoc[s.ethIp])
  {
    var mount := MountDir(env.cfg.base, s.i, s.j);
    var dep := env.deployDoc[s.ethIp];
    State(st.cmds + PrepCmds(env.cfg, mount) + ScpCmds(env.cfg, mount, env.nodeIps),
          st.files[PathJoin(mount, PierTomlFile) := RewritePierToml(env.pierToml, s.bitxhubIp, dep.id)]
                  [PathJoin(mount, EtherTomlFile) := RewriteEtherToml(env.etherToml, s.ethIp, dep.broker)],
          st.pods + [PodFor(s, mount)],
          st.doc[PierName(s.i, s.j) := EntryFor(s, dep)],
          Running)
  }

  /** One chain. The working directory is prepared before
      `deploy_<ns>.json` is consulted, so a chain missing from it raises
      KeyError after the three preparation commands and before any file is
      written. */
  function Step(st: State, s: Slot, env: Env): (r: State)
    ensures !st.status.Running? ==> r == st
    ensures st.cmds <= r.cmds && st.pods <= r.pods && |r.pods| <= |st.pods| + 1
    ensures r.status.Running? <==> st.status.Running? && s.ethIp in env.deployDoc
    ensures r.status.Raised? ==> r.status.exc == KeyError || r == st
    ensures r.status.Running? ==> r.doc.Keys == st.doc.Keys + {PierName(s.i, s.j)}
  {
    if !st.status.Running? then st
    else if s.ethIp !in env.deployDoc then
      st.(cmds := st.cmds + PrepCmds(env.cfg, MountDir(env.cfg.base, s.i, s.j)), status := Raised(KeyError))
    else Configure(st, s, env)
  }

  /** The loop over a list of chains, as a left fold of `Step`. */
  function Run(slots: seq<Slot>, env: Env): (r: State)
    ensures |r.pods| <= |slots|
    ensures r.status.Running? ==> |r.pods| == |slots|
    ensures r.status.Raised? ==> r.status.exc == KeyError
  {
    if slots == [] then State([], map[], [], map[], Running)
    else
      Step(Run(slots[..|slots| - 1], env), slots[|slots| - 1], env)
  }

  /** What a call leaves: `pier_<ns>.json`, or the exception that ended it. */
  datatype Report = Written(doc: map<string, PierEntry>) | Failed(exc: Exc)

  function Finish(st: State): Report {
    match st.status
    case Running => Written(st.doc)
    case Raised(e) => Failed(e)
  }

  /** `create_deployment_pier` itself, given the output of
      `kubectl get nodes -o wide`, the graph document and the deployment
      document, proved against `Run` over `Slots(graphDoc)`. A node line too
      short for its IP column ends it before anything is done. */
  method CreateDeploymentPier(cfg: PierConfig, nodesOut: string, graphDoc: seq<Resolve.RelayNode>,
                              deployDoc: map<string, Deploy.Deployment>, pierToml: Toml, etherToml: Toml)
    returns (cmds: seq<string>, files: map<string, Toml>, pods: seq<PierPod>, res: Report)
    ensures PodListing.NodeIps(nodesOut).Raise? ==>
      cmds == [] && files == map[] && pods == [] && res == Failed(IndexError)
    ensures PodListing.NodeIps(nodesOut).Ok? ==>
      var st := Run(Slots(graphDoc), Env(cfg, PodListing.NodeIps(nodesOut).value, deployDoc, pierToml, etherToml));
      cmds == st.cmds && files == st.files && pods == st.pods && res == Finish(st)
  {
    cmds, files, pods := [], map[], [];
    var nodes := PodListing.NodeIps(nodesOut);
    if nodes.Raise? {
      return cmds, files, pods, Failed(IndexError);
    }
    var nodeIpList := nodes.value;
    ghost var env := Env(cfg, nodeIpList, deployDoc, pierToml, etherToml);
    var pierJson: map<string, PierEntry> := map[];
    for i := 0 to |graphDoc|
      invariant Run(Slots(graphDoc[..i]), env) == State(cmds, files, pods, pierJson, Running)
    {
      var item := graphDoc[i];
      var bitxhubIp := item.bitxhubIp;
      DoneStart(graphDoc, i);
      for j := 0 to |item.chainIpList|
        invariant Run(Done(graphDoc, i, j), env) == State(cmds, files, pods, pierJson, Running)
      {
        var ethIp := item.chainIpList[j];
        ghost var st := State(cmds, files, pods, pierJson, Running);
        ghost var s := Slot(i, j, item.name, bitxhubIp, ethIp);
        DoneStep(graphDoc, i, j, env);
        var mountPier := PathJoin(cfg.base, "mount_pier" + NatToString(i) + NatToString(j));
        cmds := cmds + PrepCmds(cfg, mountPier);
        if ethIp !in deployDoc {
          DoneStops(graphDoc, i, j + 1, env);
          return cmds, files, pods, Failed(KeyError);
        }
        var dep := deployDoc[ethIp];
        files := files[PathJoin(mountPier, "pier.toml") := RewritePierToml(pierToml, bitxhubIp, dep.id)];
        files := files[PathJoin(mountPier, "ether/ethereum.toml") := RewriteEtherToml(etherToml, ethIp, dep.broker)];
        cmds := CopyToNodes(cmds, cfg, mountPier, nodeIpList);
        var name := "pier-" + NatToString(i) + "-" + NatToString(j);
        pods := pods + [PierPod(name, name, "/root/.pier", name, mountPier, "Directory", "pier-0-" + NatToString(j))];
        pierJson := pierJson[name := PierEntry(item.name, dep.id, "eth" + NatToString(i) + NatToString(j), "ETH", ethIp)];
        assert Step(st, s, env) == State(cmds, files, pods, pierJson, Running);
      }
      DoneEnd(graphDoc, i);
    }
    assert graphDoc[..|graphDoc|] == graphDoc;
    return cmds, files, pods, Written(pierJson);
  }

  /** The copy loop: one command per worker node, skipping the control
      node. */
  method CopyToNodes(cmds: seq<string>, cfg: PierConfig, mount: string, nodeIpList: seq<string>)
    returns (cmds': seq<string>)
    ensures cmds' == cmds + ScpCmds(cfg, mount, nodeIpList)
  {
    cmds' := cmds;
    for k := 0 to |nodeIpList|
      invariant cmds' == cmds + ScpCmds(cfg, mount, nodeIpList[..k])
    {
      var nodeIp := nodeIpList[k];
      assert nodeIpList[..k + 1][..k] == nodeIpList[..k];
      if nodeIp == "10.206.0.7" {
        continue;
      }
      cmds' := cmds' + ["sshpass -p " + cfg.passwd + " scp -r " + mount + " " + cfg.user + "@" + nodeIp + ":" + cfg.base];
    }
    assert nodeIpList[..|nodeIpList|] == nodeIpList;
  }

  // ---------------------------------------------------------------------------
  // The nested loop as a fold
  // ---------------------------------------------------------------------------

  /** The chains handled once the inner loop is at chain j of relay node i. */
  function Done(graphDoc: seq<Resolve.RelayNode>, i: nat, j: nat): seq<Slot>
    requires i < |graphDoc| && j <= |graphDoc[i].chainIpList|
  {
    Slots(graphDoc[..i]) + SlotsOf(graphDoc[i], i)[..j]
  }

  lemma DoneStart(graphDoc: seq<Resolve.RelayNode>, i: nat)
    requires i < |graphDoc|
    ensures Done(graphDoc, i, 0) == Slots(graphDoc[..i])
  {
  }

  lemma DoneEnd(graphDoc: seq<Resolve.RelayNode>, i: nat)
    requires i < |graphDoc|
    ensures Done(graphDoc, i, |graphDoc[i].chainIpList|) == Slots(graphDoc[..i + 1])
  {
    assert graphDoc[..i + 1][..i] == graphDoc[..i];
    assert SlotsOf(graphDoc[i], i)[..|graphDoc[i].chainIpList|] == SlotsOf(graphDoc[i], i);
  }

  lemma DoneStep(graphDoc: seq<Resolve.RelayNode>, i: nat, j: nat, env: Env)
    requires i < |graphDoc| && j < |graphDoc[i].chainIpList|
    ensures var node := graphDoc[i];
      Run(Done(graphDoc, i, j + 1), env)
        == Step(Run(Done(graphDoc, i, j), env), Slot(i, j, node.name, node.bitxhubIp, node.chainIpList[j]), env)
  {
    var done := Done(graphDoc, i, j + 1);
    assert done[..|done| - 1] == Done(graphDoc, i, j);
  }

  lemma DoneStops(graphDoc: seq<Resolve.RelayNode>, i: nat, j: nat, env: Env)
    requires i < |graphDoc| && j <= |graphDoc[i].chainIpList|
    requires !Run(Done(graphDoc, i, j), env).status.Running?
    ensures Run(Slots(graphDoc), env) == Run(Done(graphDoc, i, j), env)
  {
    SlotsPrefix(graphDoc, i + 1);
    assert graphDoc[..i + 1][..i] == graphDoc[..i];
    assert SlotsOf(graphDoc[i], i)[..j] <= SlotsOf(graphDoc[i], i);
    StoppedStaysStopped(Done(graphDoc, i, j), Slots(graphDoc), env);
  }

  lemma {:induction false} SlotsPrefix(doc: seq<Resolve.RelayNode>, n: nat)
    requires n <= |doc|
    ensures Slots(doc[..n]) <= Slots(doc)
    decreases |doc| - n
  {
    if n < |doc| {
      var h := doc[..|doc| - 1];
      assert h[..n] == doc[..n];
      SlotsPrefix(h, n);
    } else {
      assert doc[..n] == doc;
    }
  }

  /** Once a KeyError has ended the loop, further chains change nothing. */
  lemma {:induction false} StoppedStaysStopped(done: seq<Slot>, slots: seq<Slot>, env: Env)
    requires done <= slots
    requires !Run(done, env).status.Running?
    ensures Run(slots, env) == Run(done, env)
    decreases |slots|
  {
    if |slots| > |done| {
      var h := slots[..|slots| - 1];
      assert done <= h;
      StoppedStaysStopped(done, h, env);
    } else {
      assert slots == done;
    }
  }

  // ---------------------------------------------------------------------------
  // Properties
  // ---------------------------------------------------------------------------

  /** A chain missing from `deploy_<ns>.json` ends the loop after its three
      preparation commands, with no file, pod or entry for it, and no pier
      document is written. */
  lemma MissingChainAborts(done: seq<Slot>, s: Slot, rest: seq<Slot>, env: Env)
    requires Run(done, env).status.Running?
    requires s.ethIp !in env.deployDoc
    ensures var st := Run(done, env);
      Run(done + [s] + rest, env)
        == st.(cmds := st.cmds + PrepCmds(env.cfg, MountDir(env.cfg.base, s.i, s.j)), status := Raised(KeyError))
    ensures Finish(Run(done + [s] + rest, env)) == Failed(KeyError)
  {
    var d1 := done + [s];
    assert d1[..|done|] == done;
    StoppedStaysStopped(d1, done + [s] + rest, env);
  }

  /** A deployed chain runs its preparation commands, then one copy per
      worker node other than the control node; asks for one pod named after
      its slot that mounts the working directory; and records its entry. */
  lemma StepOnDeployedChain(st: State, s: Slot, env: Env)
    requires st.status.Running? && s.ethIp in env.deployDoc
    ensures var st' := Step(st, s, env);
      var mount := MountDir(env.cfg.base, s.i, s.j);
      && st'.status.Running?
      && st'.cmds == st.cmds + PrepCmds(env.cfg, mount) + ScpCmds(env.cfg, mount, env.nodeIps)
      && st'.pods == st.pods + [PodFor(s, mount)]
      && st'.pods[|st.pods|].name == PierName(s.i, s.j) && st'.pods[|st.pods|].hostPath == mount
      && st'.doc == st.doc[PierName(s.i, s.j) := EntryFor(s, env.deployDoc[s.ethIp])]
  {
    assert Step(st, s, env) == Configure(st, s, env);
  }

  /** A deployed chain writes a `pier.toml` that points at its relay's four
      endpoints and carries its appchain id, and an `ethereum.toml` that
      points at its geth node and its broker. */
  lemma StepWritesChainFiles(st: State, s: Slot, env: Env)
    requires st.status.Running? && s.ethIp in env.deployDoc
    ensures var dep := env.deployDoc[s.ethIp];
      ChainFiles(Step(st, s, env).files, MountDir(env.cfg.base, s.i, s.j), s.bitxhubIp, s.ethIp, dep.id, dep.broker)
  {
    assert Step(st, s, env) == Configure(st, s, env);
    var dep := env.deployDoc[s.ethIp];
    ConfiguredFiles(st.files, MountDir(env.cfg.base, s.i, s.j), env.pierToml, env.etherToml,
                    s.bitxhubIp, s.ethIp, dep.id, dep.broker);
  }

  /** The working directory `mount` holds a `pier.toml` pointing at the relay
      node and naming the appchain, and an `ethereum.toml` pointing at the
      chain's websocket endpoint and its broker contract. */
  predicate ChainFiles(files: map<string, Toml>, mount: string, relayIp: string, ethIp: string,
                       appchainId: string, broker: string) {
    var p, e := PathJoin(mount, PierTomlFile), PathJoin(mount, EtherTomlFile);
    && p in files && e in files
    && RelayAddrsKey in files[p] && files[p][RelayAddrsKey] == StrList(RelayAddrs(relayIp))
    && AppchainIdKey in files[p] && files[p][AppchainIdKey] == Str(appchainId)
    && EtherAddrKey in files[e] && files[e][EtherAddrKey] == Str("ws://" + ethIp + ":8546")
    && EtherContractKey in files[e] && files[e][EtherContractKey] == Str(broker)
  }

  /** The two writes of one chain leave each file as its own rewrite. */
  lemma ConfiguredFiles(files: map<string, Toml>, mount: string, pierToml: Toml, etherToml: Toml,
                        relayIp: string, ethIp: string, appchainId: string, broker: string)
    ensures ChainFiles(files[PathJoin(mount, PierTomlFile) := RewritePierToml(pierToml, relayIp, appchainId)]
                            [PathJoin(mount, EtherTomlFile) := RewriteEtherToml(etherToml, ethIp, broker)],
                       mount, relayIp, ethIp, appchainId, broker)
  {
    TomlPathsDistinct(mount);
    var p, e := PathJoin(mount, PierTomlFile), PathJoin(mount, EtherTomlFile);
    var u := RewritePierToml(pierToml, relayIp, appchainId);
    var f := files[p := u][e := RewriteEtherToml(etherToml, ethIp, broker)];
    assert f[p] == u;
  }

  /** The worker nodes the directory is copied to are exactly the listed nodes
      other than the control node. */
  lemma CopyTargets(cfg: PierConfig, mount: string, nodeIps: seq<string>, nodeIp: string)
    ensures ScpCmd(cfg, mount, nodeIp) in ScpCmds(cfg, mount, nodeIps) <== nodeIp in nodeIps && nodeIp != ControlNode
    ensures forall c :: c in ScpCmds(cfg, mount, nodeIps) ==>
      exists h :: h in nodeIps && h != ControlNode && c == ScpCmd(cfg, mount, h)
  {
    var hs := ScpHosts(nodeIps);
    if nodeIp in nodeIps && nodeIp != ControlNode {
      var k :| 0 <= k < |hs| && hs[k] == nodeIp;
      assert ScpCmds(cfg, mount, nodeIps)[k] == ScpCmd(cfg, mount, nodeIp);
    }
    forall c | c in ScpCmds(cfg, mount, nodeIps)
      ensures exists h :: h in nodeIps && h != ControlNode && c == ScpCmd(cfg, mount, h)
    {
      var k :| 0 <= k < |hs| && ScpCmds(cfg, mount, nodeIps)[k] == c;
      assert hs[k] in hs;
    }
  }

  /** The loop runs to the end exactly when every chain is in
      `deploy_<ns>.json`. */
  lemma {:induction false} WrittenIffAllDeployed(slots: seq<Slot>, env: Env)
    ensures Run(slots, env).status.Running? <==> forall s <- slots :: s.ethIp in env.deployDoc
  {
    if slots != [] {
      var h := slots[..|slots| - 1];
      var s := slots[|slots| - 1];
      WrittenIffAllDeployed(h, env);
      StepKeepsRunning(Run(h, env), s, env);
      assert slots == h + [s];
      assert forall x <- slots :: x in h || x == s;
    }
  }

  /** One chain keeps the loop going exactly when it was going and the chain
      is in `deploy_<ns>.json`. */
  lemma StepKeepsRunning(st: State, s: Slot, env: Env)
    ensures Step(st, s, env).status.Running? <==> st.status.Running? && s.ethIp in env.deployDoc
  {
  }

  /** Distinct slots give distinct pod and entry names: the number of the
      relay node ends at the dash, which is not a digit. */
  lemma PierNamesDistinct(i: nat, j: nat, i': nat, j': nat)
    requires PierName(i, j) == PierName(i', j')
    ensures i == i' && j == j'
  {
    var x, y, u, v := NatToString(i), NatToString(j), NatToString(i'), NatToString(j');
    assert "pier-" + x + "-" + y == "pier-" + (x + ['-'] + y);
    assert "pier-" + u + "-" + v == "pier-" + (u + ['-'] + v);
    assert x + ['-'] + y == PierName(i, j)[5..] == PierName(i', j')[5..] == u + ['-'] + v;
    DigitsBeforeSeparator(x, y, u, v, '-');
    NatToStringInjective(i, i');
    NatToStringInjective(j, j');
  }

  /** Working directories are not distinct: chain 11 of relay node 1 and
      chain 1 of relay node 11 share `mount_pier111`, so the later chain
      empties and overwrites the earlier chain's directory while the earlier
      pod still mounts it. */
  lemma MountDirsCollide(base: string)
    ensures PierName(1, 11) != PierName(11, 1)
    ensures MountDir(base, 1, 11) == MountDir(base, 11, 1)
  {
    assert NatToString(1) == "1" && NatToString(11) == "11";
    assert "mount_pier" + "1" + "11" == "mount_pier" + "11" + "1";
    if PierName(1, 11) == PierName(11, 1) {
      PierNamesDistinct(1, 11, 11, 1);
    }
  }

  /** The same two chains are also registered under one appchain name,
      `eth111`, in `pier_<ns>.json`, although their entries are kept apart
      by their distinct pier names. */
  lemma AppchainNamesCollide(s: Slot, t: Slot, dep: Deploy.Deployment, dep': Deploy.Deployment)
    requires s.i == 1 && s.j == 11 && t.i == 11 && t.j == 1
    ensures PierName(s.i, s.j) != PierName(t.i, t.j)
    ensures EntryFor(s, dep).appchainName == EntryFor(t, dep').appchainName == "eth111"
  {
    MountDirsCollide([]);
    assert NatToString(1) == "1" && NatToString(11) == "11";
    assert "eth" + "1" + "11" == "eth" + "11" + "1" == "eth111";
  }

  /** In the slots of a graph document no (relay, chain) pair repeats and
      every relay index is below the document's length. */
  ghost predicate DistinctSlots(slots: seq<Slot>) {
    forall a, b :: 0 <= a < b < |slots| ==> (slots[a].i, slots[a].j) != (slots[b].i, slots[b].j)
  }

  lemma {:induction false} SlotsDistinct(doc: seq<Resolve.RelayNode>)
    ensures DistinctSlots(Slots(doc))
    ensures forall s <- Slots(doc) :: s.i < |doc|
  {
    if doc != [] {
      var h := doc[..|doc| - 1];
      SlotsDistinct(h);
      var earlier, added := Slots(h), SlotsOf(doc[|doc| - 1], |doc| - 1);
      var all := earlier + added;
      assert Slots(doc) == all;
      forall a, b | 0 <= a < b < |all| ensures (all[a].i, all[a].j) != (all[b].i, all[b].j) {
        if b >= |earlier| && a < |earlier| {
          assert all[a] in earlier;
        } else if a >= |earlier| {
          assert all[a] == added[a - |earlier|] && all[b] == added[b - |earlier|];
        }
      }
      forall s <- all ensures s.i < |doc| {
        if s in earlier { } else { assert s in added; }
      }
    }
  }

  /** The pod and entry names of a list of slots. */
  function PierNames(slots: seq<Slot>): set<string> {
    set s <- slots :: PierName(s.i, s.j)
  }

  /** One pod per slot, in slot order. */
  ghost predicate PodsRecorded(pods: seq<PierPod>, slots: seq<Slot>, env: Env) {
    && |pods| == |slots|
    && forall k :: 0 <= k < |slots| ==> pods[k] == PodFor(slots[k], MountDir(env.cfg.base, slots[k].i, slots[k].j))
  }

  /** Every slot's entry, built from its deployment. */
  ghost predicate EntriesRecorded(doc: map<string, PierEntry>, slots: seq<Slot>, env: Env) {
    forall k :: 0 <= k < |slots| ==>
      && slots[k].ethIp in env.deployDoc
      && PierName(slots[k].i, slots[k].j) in doc
      && doc[PierName(slots[k].i, slots[k].j)] == EntryFor(slots[k], env.deployDoc[slots[k].ethIp])
  }

  /** While running, the pods and the document account for every slot
      handled; with distinct slots no entry has been overwritten. */
  ghost predicate Recorded(st: State, slots: seq<Slot>, env: Env) {
    st.status.Running? ==>
      && PodsRecorded(st.pods, slots, env)
      && st.doc.Keys == PierNames(slots)
      && (DistinctSlots(slots) ==> EntriesRecorded(st.doc, slots, env))
  }

  lemma {:induction false} RunRecorded(slots: seq<Slot>, env: Env)
    ensures Recorded(Run(slots, env), slots, env)
  {
    if slots != [] {
      var h := slots[..|slots| - 1];
      var s := slots[|slots| - 1];
      RunRecorded(h, env);
      assert slots == h + [s];
      StepRecorded(Run(h, env), h, s, env);
    }
  }

  lemma StepRecorded(st: State, slots: seq<Slot>, s: Slot, env: Env)
    requires Recorded(st, slots, env)
    ensures Recorded(Step(st, s, env), slots + [s], env)
  {
    var st' := Step(st, s, env);
    if st'.status.Running? {
      StepKeeps(st, s, env);
      AddRecorded(st, st', slots, s, env);
    }
  }

  /** What a chain that went through adds to the pods and the document. */
  lemma StepKeeps(st: State, s: Slot, env: Env)
    requires Step(st, s, env).status.Running?
    ensures st.status.Running? && s.ethIp in env.deployDoc
    ensures Step(st, s, env).pods == st.pods + [PodFor(s, MountDir(env.cfg.base, s.i, s.j))]
    ensures Step(st, s, env).doc == st.doc[PierName(s.i, s.j) := EntryFor(s, env.deployDoc[s.ethIp])]
  {
  }

  lemma AddRecorded(st: State, st': State, slots: seq<Slot>, s: Slot, env: Env)
    requires Recorded(st, slots, env) && st.status.Running? && st'.status.Running?
    requires s.ethIp in env.deployDoc
    requires st'.pods == st.pods + [PodFor(s, MountDir(env.cfg.base, s.i, s.j))]
    requires st'.doc == st.doc[PierName(s.i, s.j) := EntryFor(s, env.deployDoc[s.ethIp])]
    ensures Recorded(st', slots + [s], env)
  {
    assert PodsRecorded(st'.pods, slots + [s], env) by {
      AddPods(st.pods, st'.pods, slots, s, env);
    }
    assert st'.doc.Keys == PierNames(slots + [s]) by {
      PierNamesSnoc(slots, s);
      assert st'.doc.Keys == st.doc.Keys + {PierName(s.i, s.j)};
    }
    assert DistinctSlots(slots + [s]) ==> EntriesRecorded(st'.doc, slots + [s], env) by {
      if DistinctSlots(slots + [s]) {
        AddEntries(st.doc, st'.doc, slots, s, env);
      }
    }
  }

  lemma PierNamesSnoc(slots: seq<Slot>, s: Slot)
    ensures PierNames(slots + [s]) == PierNames(slots) + {PierName(s.i, s.j)}
  {
    assert forall x :: x in slots + [s] <==> x in slots || x == s;
  }

  lemma AddPods(pods: seq<PierPod>, pods': seq<PierPod>, slots: seq<Slot>, s: Slot, env: Env)
    requires PodsRecorded(pods, slots, env)
    requires pods' == pods + [PodFor(s, MountDir(env.cfg.base, s.i, s.j))]
    ensures PodsRecorded(pods', slots + [s], env)
  {
    var slots' := slots + [s];
    forall k | 0 <= k < |slots'|
      ensures pods'[k] == PodFor(slots'[k], MountDir(env.cfg.base, slots'[k].i, slots'[k].j))
    {
      if k < |slots| { assert slots'[k] == slots[k] && pods'[k] == pods[k]; }
    }
  }

  lemma AddEntries(doc: map<string, PierEntry>, doc': map<string, PierEntry>, slots: seq<Slot>, s: Slot, env: Env)
    requires DistinctSlots(slots + [s]) && (DistinctSlots(slots) ==> EntriesRecorded(doc, slots, env))
    requires s.ethIp in env.deployDoc
    requires doc' == doc[PierName(s.i, s.j) := EntryFor(s, env.deployDoc[s.ethIp])]
    ensures EntriesRecorded(doc', slots + [s], env)
  {
    var slots' := slots + [s];
    assert DistinctSlots(slots) by {
      forall a, b | 0 <= a < b < |slots| ensures (slots[a].i, slots[a].j) != (slots[b].i, slots[b].j) {
        assert slots'[a] == slots[a] && slots'[b] == slots[b];
      }
    }
    forall k | 0 <= k < |slots'|
      ensures slots'[k].ethIp in env.deployDoc
      ensures PierName(slots'[k].i, slots'[k].j) in doc'
      ensures doc'[PierName(slots'[k].i, slots'[k].j)] == EntryFor(slots'[k], env.deployDoc[slots'[k].ethIp])
    {
      if k < |slots| {
        assert slots'[k] == slots[k] && slots'[|slots|] == s;
        if PierName(slots[k].i, slots[k].j) == PierName(s.i, s.j) {
          PierNamesDistinct(slots[k].i, slots[k].j, s.i, s.j);
        }
      }
    }
  }

  /** A written pier document has exactly one entry per chain of the graph
      document, carrying the appchain id that `deploy` recorded for the
      chain's IP, and one pod was asked for per chain, in order, under pairwise
      distinct names. */
  lemma PierDocument(graphDoc: seq<Resolve.RelayNode>, env: Env)
    ensures var slots := Slots(graphDoc);
      var st := Run(slots, env);
      st.status.Running? ==>
        && PodsRecorded(st.pods, slots, env)
        && st.doc.Keys == PierNames(slots)
        && EntriesRecorded(st.doc, slots, env)
        && (forall a, b :: 0 <= a < b < |st.pods| ==> st.pods[a].name != st.pods[b].name)
  {
    var slots := Slots(graphDoc);
    SlotsDistinct(graphDoc);
    RunRecorded(slots, env);
    var st := Run(slots, env);
    if st.status.Running? {
      forall a, b | 0 <= a < b < |st.pods| ensures st.pods[a].name != st.pods[b].name {
        if st.pods[a].name == st.pods[b].name {
          PierNamesDistinct(slots[a].i, slots[a].j, slots[b].i, slots[b].j);
        }
      }
    }
  }

  /** The k-th slot of a graph document is the k-th chain `deploy` handles. */
  lemma {:induction false} SlotsFollowJobs(doc: seq<Resolve.RelayNode>)
    ensures |Slots(doc)| == |Deploy.Jobs(doc)|
    ensures forall k :: 0 <= k < |Slots(doc)| ==> Slots(doc)[k].ethIp == Deploy.Jobs(doc)[k].ethIp
  {
    if doc != [] {
      SlotsFollowJobs(doc[..|doc| - 1]);
    }
  }

  /** A deployment document keyed by the chain IPs of the graph document
      covers every slot. */
  lemma SlotsDeployed(graphDoc: seq<Resolve.RelayNode>, env: Env)
    requires env.deployDoc.Keys == Deploy.Ips(Deploy.Jobs(graphDoc))
    ensures forall s <- Slots(graphDoc) :: s.ethIp in env.deployDoc
  {
    var jobs := Deploy.Jobs(graphDoc);
    SlotsFollowJobs(graphDoc);
    var slots := Slots(graphDoc);
    forall s <- slots ensures s.ethIp in env.deployDoc {
      var k :| 0 <= k < |slots| && slots[k] == s;
      assert jobs[k] in jobs;
    }
  }

  /** A deployment document that `deploy` wrote for the same graph document
      covers every chain, so the pier loop then runs to the end. */
  lemma PierAfterDeploy(graphDoc: seq<Resolve.RelayNode>, run: ContractTool.Tool, env: Env)
    requires Deploy.Finish(Deploy.Run(Deploy.Jobs(graphDoc), 0, run)) == Deploy.Written(env.deployDoc)
    ensures Finish(Run(Slots(graphDoc), env)).Written?
  {
    Deploy.WrittenKeys(Deploy.Jobs(graphDoc), 0, run);
    SlotsDeployed(graphDoc, env);
    WrittenIffAllDeployed(Slots(graphDoc), env);
  }
}
