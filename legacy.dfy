/** The older copy of the orchestration script (k8s-ethereum/main.py):
    `deploy` numbers the geth pods of the listing from 1 and anchors them all
    at the fixed relay id 1356, and `create_deployment_pier` takes relays and
    chains from the back of the listings and prepares one shared working
    directory per relay node. */
module Legacy {

  import opened Outcome
  import opened Text
  import opened Bundle
  import opened ContractTool
  import PodListing
  import Deploy
  import Provision

  // ---------------------------------------------------------------------------
  // deploy (k8s-ethereum/main.py:231-256)
  // ---------------------------------------------------------------------------

  /** The relay id every broker is constructed with. */
  const FixedRelayId: string := "1356"

  /** The chains of the listing, in listing order, all at relay 1356. */
  function LegacyJobs(ips: seq<string>): (js: seq<Deploy.Job>)
    ensures |js| == |ips| && forall k :: 0 <= k < |ips| ==> js[k] == Deploy.Job(ips[k], FixedRelayId)
  {
    seq(|ips|, k requires 0 <= k < |ips| => Deploy.Job(ips[k], FixedRelayId))
  }

  /** An entry of `addr.json`: no relay id is recorded. */
  datatype Addr = Addr(broker: string, transfer: string, id: string)

  function AddrDoc(doc: map<string, Deploy.Deployment>): (r: map<string, Addr>)
    ensures r.Keys == doc.Keys
    ensures forall ip :: ip in doc ==> r[ip] == Addr(doc[ip].broker, doc[ip].transfer, doc[ip].id)
  {
    map ip | ip in doc :: Addr(doc[ip].broker, doc[ip].transfer, doc[ip].id)
  }

  lemma AddrDocUpdate(doc: map<string, Deploy.Deployment>, ip: string, dep: Deploy.Deployment)
    ensures AddrDoc(doc[ip := dep]) == AddrDoc(doc)[ip := Addr(dep.broker, dep.transfer, dep.id)]
  {
  }

  /** What a call leaves: `addr.json`, or nothing. */
  datatype AddrReport = Written(doc: map<string, Addr>) | EarlyReturn | Failed(exc: Exc)

  function FinishAddr(st: Deploy.State): AddrReport {
    match st.status
    case Running => Written(AddrDoc(st.doc))
    case Returned => EarlyReturn
    case Raised(e) => Failed(e)
  }

  /** The older `deploy`, given the output of the geth pod listing, proved
      against the same per-chain fold as the current one with the counter
      starting at 1. A listing line too short for its IP column raises before
      any command is run. */
  method LegacyDeploy(gethOut: string, run: Tool) returns (cmds: seq<string>, res: AddrReport)
    ensures PodListing.Parse(gethOut).Raise? ==> cmds == [] && res == Failed(IndexError)
    ensures PodListing.Parse(gethOut).Ok? ==>
      var st := Deploy.Run(LegacyJobs(PodListing.Parse(gethOut).value.ips), 1, run);
      cmds == st.cmds && res == FinishAddr(st)
  {
    var listing := PodListing.Parse(gethOut);
    if listing.Raise? {
      return [], Failed(IndexError);
    }
    cmds, res := DeployListed(listing.value.ips, run);
  }

  /** The loop of the older `deploy` over the listed geth IPs. */
  method DeployListed(ethIpList: seq<string>, run: Tool) returns (cmds: seq<string>, res: AddrReport)
    ensures var st := Deploy.Run(LegacyJobs(ethIpList), 1, run);
      cmds == st.cmds && res == FinishAddr(st)
  {
    cmds := [];
    ghost var jobs := LegacyJobs(ethIpList);
    ghost var full: map<string, Deploy.Deployment> := map[];
    var d: map<string, Addr> := map[];
    for i := 0 to |ethIpList|
      invariant Deploy.Run(jobs[..i], 1, run) == Deploy.State(full, i + 1, cmds, Deploy.Running)
      invariant d == AddrDoc(full)
    {
      JobsStep(jobs, i, run);
      var stop;
      cmds, d, full, stop := DeployRound(ethIpList[i], i + 1, run, cmds, d, full);
      if stop.Some? {
        JobsStop(jobs, i + 1, run);
        return cmds, stop.value;
      }
    }
    assert jobs[..|ethIpList|] == jobs;
    return cmds, Written(d);
  }

  /** The body of the loop for one geth IP, with `n` the chain's number,
      proved against `Deploy.Step`: `stop` is the report of a round that
      ends the loop. */
  method DeployRound(ethIp: string, n: nat, run: Tool, cmds0: seq<string>, d0: map<string, Addr>,
                     ghost full0: map<string, Deploy.Deployment>)
    returns (cmds: seq<string>, d: map<string, Addr>, ghost full: map<string, Deploy.Deployment>,
             stop: Option<AddrReport>)
    requires d0 == AddrDoc(full0)
    ensures var st := Deploy.Step(Deploy.State(full0, n, cmds0, Deploy.Running), Deploy.Job(ethIp, FixedRelayId), run);
      && cmds == st.cmds
      && (stop.None? <==> st.status.Running?)
      && (stop.None? ==> st == Deploy.State(full, n + 1, cmds, Deploy.Running) && d == AddrDoc(full))
      && (stop.Some? ==> stop.value == FinishAddr(st))
  {
    var cs, out := DeployOnChain(ethIp, FixedRelayId, NatToString(n), run);
    cmds, d, full := cmds0 + cs, d0, full0;
    match out
    case BrokerEmpty =>
      stop := Some(EarlyReturn);
    case Crashed =>
      stop := Some(Failed(IndexError));
    case Deployed(broker, transfer) =>
      ghost var dep := Deploy.Deployment(broker, transfer, Deploy.AppchainName(n), FixedRelayId);
      AddrDocUpdate(full0, ethIp, dep);
      d := d0[ethIp := Addr(broker, transfer, "ethappchain" + NatToString(n))];
      full := full0[ethIp := dep];
      stop := None;
  }

  lemma JobsStep(jobs: seq<Deploy.Job>, i: nat, run: Tool)
    requires i < |jobs|
    ensures Deploy.Run(jobs[..i + 1], 1, run) == Deploy.Step(Deploy.Run(jobs[..i], 1, run), jobs[i], run)
  {
    assert jobs[..i + 1][..i] == jobs[..i];
  }

  lemma {:induction false} JobsStop(jobs: seq<Deploy.Job>, n: nat, run: Tool)
    requires n <= |jobs|
    requires !Deploy.Run(jobs[..n], 1, run).status.Running?
    ensures Deploy.Run(jobs, 1, run) == Deploy.Run(jobs[..n], 1, run)
    decreases |jobs|
  {
    if n < |jobs| {
      var h := jobs[..|jobs| - 1];
      assert h[..n] == jobs[..n];
      JobsStop(h, n, run);
    } else {
      assert jobs[..n] == jobs;
    }
  }

  /** The ids of a written `addr.json` are pairwise distinct, there is one
      entry per listed IP, and with no IP listed twice the i-th listed pod
      is `ethappchain<i + 1>`. */
  lemma LegacyIdsOneBased(ips: seq<string>, run: Tool)
    ensures FinishAddr(Deploy.Run(LegacyJobs(ips), 1, run)).Written? ==>
      var doc := FinishAddr(Deploy.Run(LegacyJobs(ips), 1, run)).doc;
      && (forall a, b :: a in doc && b in doc && a != b ==> doc[a].id != doc[b].id)
      && doc.Keys == (set ip <- ips)
      && ((forall a, b :: 0 <= a < b < |ips| ==> ips[a] != ips[b]) ==>
            forall k :: 0 <= k < |ips| ==> ips[k] in doc && doc[ips[k]].id == Deploy.AppchainName(k + 1))
  {
    var jobs := LegacyJobs(ips);
    var st := Deploy.Run(jobs, 1, run);
    if st.status.Running? {
      assert FinishAddr(st).doc == AddrDoc(st.doc);
      Deploy.DeployIdsDistinct(jobs, 1, run);
      LegacyIps(ips);
      if forall a, b :: 0 <= a < b < |ips| ==> ips[a] != ips[b] {
        LegacyDistinct(ips);
      }
    }
  }

  /** An `addr.json` entry read off the tool: its id is `ethappchain<no>`, its
      broker the last word the broker deployment for chain `no` at relay 1356
      printed for this IP, its transfer the last word the transfer deployment
      with that broker printed. */
  ghost predicate AddrFromTool(run: Tool, ip: string, a: Addr) {
    && |a.id| >= 11 && a.id[..11] == "ethappchain"
    && LastWord(run(BrokerCmd(ip, FixedRelayId, a.id[11..]))) == Some(a.broker)
    && LastWord(run(TransferCmd(ip, a.broker))) == Some(a.transfer)
  }

  /** Every entry of an `addr.json` was read off the tool. */
  ghost predicate AllAddrsFromTool(doc: map<string, Addr>, run: Tool) {
    forall ip :: ip in doc ==> AddrFromTool(run, ip, doc[ip])
  }

  /** What a written `addr.json` records: every entry's broker and transfer
      are the last words of the two deployments for its IP; and with no IP
      listed twice, the i-th listed pod's entry holds what the deployments for
      chain number i + 1 printed. */
  lemma LegacyRecordsToolOutput(ips: seq<string>, run: Tool)
    ensures FinishAddr(Deploy.Run(LegacyJobs(ips), 1, run)).Written? ==>
      var doc := FinishAddr(Deploy.Run(LegacyJobs(ips), 1, run)).doc;
      && AllAddrsFromTool(doc, run)
      && ((forall a, b :: 0 <= a < b < |ips| ==> ips[a] != ips[b]) ==> AddrsInOrder(doc, ips, run))
  {
    var jobs := LegacyJobs(ips);
    var st := Deploy.Run(jobs, 1, run);
    if st.status.Running? {
      assert FinishAddr(st).doc == AddrDoc(st.doc);
      Deploy.RunFromTool(jobs, 1, run);
      AddrsFromTool(st.doc, jobs, run);
      if forall a, b :: 0 <= a < b < |ips| ==> ips[a] != ips[b] {
        LegacyDistinct(ips);
        Deploy.DeployRecordsToolOutput(jobs, 1, run);
        assert Deploy.RecordsRead(st.doc, jobs, 1, run);
        ReadAddrsInOrder(st.doc, ips, run);
      }
    }
  }

  lemma LegacyDistinct(ips: seq<string>)
    requires forall a, b :: 0 <= a < b < |ips| ==> ips[a] != ips[b]
    ensures Deploy.DistinctIps(LegacyJobs(ips))
  {
  }

  /** Entries read off the tool at relay 1356 stay so in `addr.json`. */
  lemma AddrsFromTool(full: map<string, Deploy.Deployment>, jobs: seq<Deploy.Job>, run: Tool)
    requires Deploy.Sourced(full, jobs, run)
    requires forall k :: 0 <= k < |jobs| ==> jobs[k].bitxhubId == FixedRelayId
    ensures AllAddrsFromTool(AddrDoc(full), run)
  {
    forall ip | ip in full ensures AddrFromTool(run, ip, AddrDoc(full)[ip]) {
      var k :| 0 <= k < |jobs| && jobs[k] == Deploy.Job(ip, full[ip].bitxhubId);
      FromToolAddr(run, ip, full[ip]);
    }
  }

  lemma FromToolAddr(run: Tool, ip: string, d: Deploy.Deployment)
    requires Deploy.FromTool(run, ip, d) && d.bitxhubId == FixedRelayId
    ensures AddrFromTool(run, ip, Addr(d.broker, d.transfer, d.id))
  {
  }

  /** The i-th listed pod's entry holds what the deployments for chain number
      i + 1 at relay 1356 printed. */
  ghost predicate AddrsInOrder(doc: map<string, Addr>, ips: seq<string>, run: Tool) {
    forall k :: 0 <= k < |ips| ==>
      && ips[k] in doc
      && LastWord(run(BrokerCmd(ips[k], FixedRelayId, NatToString(k + 1)))) == Some(doc[ips[k]].broker)
      && LastWord(run(TransferCmd(ips[k], doc[ips[k]].broker))) == Some(doc[ips[k]].transfer)
  }

  lemma ReadAddrsInOrder(full: map<string, Deploy.Deployment>, ips: seq<string>, run: Tool)
    requires Deploy.ReadInOrder(full, LegacyJobs(ips), 1, run)
    ensures AddrsInOrder(AddrDoc(full), ips, run)
  {
    var jobs := LegacyJobs(ips);
    forall k | 0 <= k < |ips|
      ensures ips[k] in AddrDoc(full)
      ensures LastWord(run(BrokerCmd(ips[k], FixedRelayId, NatToString(k + 1)))) == Some(AddrDoc(full)[ips[k]].broker)
      ensures LastWord(run(TransferCmd(ips[k], AddrDoc(full)[ips[k]].broker))) == Some(AddrDoc(full)[ips[k]].transfer)
    {
      assert jobs[k] == Deploy.Job(ips[k], FixedRelayId);
    }
  }

  /** The chains of the legacy loop are exactly the listed IPs. */
  lemma LegacyIps(ips: seq<string>)
    ensures Deploy.Ips(LegacyJobs(ips)) == set ip <- ips
  {
    var jobs := LegacyJobs(ips);
    forall ip ensures ip in Deploy.Ips(jobs) <==> ip in ips {
      if ip in ips {
        var k :| 0 <= k < |ips| && ips[k] == ip;
        assert jobs[k] in jobs;
      }
    }
  }

  // ---------------------------------------------------------------------------
  // create_deployment_pier (k8s-ethereum/main.py:259-331)
  // ---------------------------------------------------------------------------

  const ScpPassword: string := "asdsaads."
  const ScpUser: string := "jyb"
  const ScpHostA: string := "10.206.0.11"
  const ScpHostB: string := "10.206.0.5"

  /** The copy of the working directory to one of the two fixed hosts. */
  function LegacyScp(dir: string, host: string, tempPath: string): (c: string)
    ensures "sshpass -p " + ScpPassword + " scp -r " + dir <= c
    ensures var target := ScpUser + "@" + host + ":" + tempPath;
      |target| <= |c| && c[|c| - |target|..] == target
  {
    "sshpass -p " + ScpPassword + " scp -r " + dir + " " + ScpUser + "@" + host + ":" + tempPath
  }

  /** The working directory: the base path with the relay index and a chain
      index appended, unseparated. */
  function WorkDir(base: string, i: nat, j: nat): (d: string)
    ensures base <= d && d[|base|..] == NatToString(i) + NatToString(j)
  {
    base + NatToString(i) + NatToString(j)
  }

  datatype Volume = Volume(name: string, hostPath: string)

  /** The fields of `k8s/deployment-pier.yaml` the loop overwrites: pod and
      container name, three volume mounts, three host-path volumes. */
  datatype LegacyPod = LegacyPod(name: string, containerName: string, mountNames: seq<string>, volumes: seq<Volume>)

  /** The pod for chain j: named after j only, mounting the working
      directory's `pier.toml`, `ether` and `plugins`. */
  function LegacyPodFor(dir: string, j: nat): (p: LegacyPod)
    ensures p.name == p.containerName == "pier-0-" + NatToString(j)
    ensures |p.mountNames| == |p.volumes| == 3
    ensures forall k :: 0 <= k < 3 ==> p.volumes[k].name == p.mountNames[k] && dir <= p.volumes[k].hostPath
  {
    var p := "pier-0-" + NatToString(j);
    var toml, ether, plugins := PathJoin(dir, PierTomlFile), PathJoin(dir, "ether"), PathJoin(dir, "plugins");
    assert dir <= toml && dir <= ether && dir <= plugins by {
      assert PierTomlFile[0] != '/' && "ether"[0] != '/' && "plugins"[0] != '/';
    }
    LegacyPod(p, p, [p + "-toml", p + "-ether", p + "-plugins"],
              [Volume(p + "-toml", toml), Volume(p + "-ether", ether), Volume(p + "-plugins", plugins)])
  }

  /** What the loop reads but never changes: `config["base"]`,
      `config["pier_temp_path"]`, `addr.json`, and the two TOML files of the
      base directory that every working directory is copied from. */
  datatype LegacyEnv = LegacyEnv(base: string, tempPath: string, addrDoc: map<string, Addr>,
                                 pierToml: Toml, etherToml: Toml)

  datatype Status = Running | Raised(exc: Exc)

  /** The state of the relay loop: what is left of the two listings, the
      leaked inner loop variable `j` (None while unbound), the command lines
      run, the TOML files as last written, and the pods asked for. */
  datatype LState = LState(relayPool: seq<string>, ethPool: seq<string>, j: Option<nat>,
                           cmds: seq<string>, files: map<string, Toml>, pods: seq<LegacyPod>,
                           status: Status)

  /** Both TOML files of a working directory exist. */
  predicate HasBundle(files: map<string, Toml>, dir: string) {
    PathJoin(dir, PierTomlFile) in files && PathJoin(dir, EtherTomlFile) in files
  }

  /** Chain k of the current relay: load, rewrite and store the two files of
      the shared directory, copy it to both hosts, ask for the pod. A chain
      missing from `addr.json` raises KeyError after the load and before the
      store. */
  function ChainStep(st: LState, dir: string, relayIp: string, k: nat, ethIp: string, env: LegacyEnv): (r: LState)
    requires HasBundle(st.files, dir)
    ensures HasBundle(r.files, dir)
    ensures r.relayPool == st.relayPool && r.ethPool == st.ethPool && r.j == st.j
    ensures st.cmds <= r.cmds && st.pods <= r.pods
    ensures r.status.Running? ==> st.status.Running? && |r.pods| == |st.pods| + 1
  {
    if !st.status.Running? then st
    else if ethIp !in env.addrDoc then st.(status := Raised(KeyError))
    else
      var a := env.addrDoc[ethIp];
      var pp, ep := PathJoin(dir, PierTomlFile), PathJoin(dir, EtherTomlFile);
      var f1 := st.files[pp := RewriteLegacyPierToml(st.files[pp], relayIp, a.id)];
      var f2 := f1[ep := RewriteEtherToml(f1[ep], ethIp, a.broker)];
      st.(cmds := st.cmds + [LegacyScp(dir, ScpHostA, env.tempPath), LegacyScp(dir, ScpHostB, env.tempPath)],
          files := f2, pods := st.pods + [LegacyPodFor(dir, k)])
  }

  /** The inner `enumerate(ethIps)` loop, as a left fold. */
  function ChainsRun(st: LState, dir: string, relayIp: string, chains: seq<string>, env: LegacyEnv): (r: LState)
    requires HasBundle(st.files, dir)
    ensures HasBundle(r.files, dir)
    ensures r.relayPool == st.relayPool && r.ethPool == st.ethPool && r.j == st.j
    ensures st.cmds <= r.cmds && st.pods <= r.pods
    ensures r.status.Running? ==> st.status.Running? && |r.pods| == |st.pods| + |chains|
  {
    if chains == [] then st
    else
      var n := |chains| - 1;
      ChainStep(ChainsRun(st, dir, relayIp, chains[..n], env), dir, relayIp, n, chains[n], env)
  }

  /** The last `n` entries of a pool, last one first: what `n` calls of
      `pop()` return. */
  function Popped(pool: seq<string>, n: nat): (r: seq<string>)
    requires n <= |pool|
    ensures |r| == n && forall m :: 0 <= m < n ==> r[m] == pool[|pool| - 1 - m]
  {
    seq(n, m requires 0 <= m < n => pool[|pool| - 1 - m])
  }

  /** The value `j` has after a relay with `n` chains: the last index of its
      chains, or whatever an earlier relay left when it has none. */
  function LeakedJ(j: Option<nat>, n: nat): (r: Option<nat>)
    ensures r.None? <==> n == 0 && j.None?
    ensures n > 0 ==> r == Some(n - 1)
    ensures n == 0 ==> r == j
  {
    if n > 0 then Some(n - 1) else j
  }

  /** Relay node i with `n` chains: pop its IP and its chains, name the
      working directory after the leaked `j`, empty it and copy the base
      directory into it, then configure its chains. */
  function RelayStep(st: LState, i: nat, n: nat, env: LegacyEnv): (r: LState)
    ensures !st.status.Running? ==> r == st
    ensures st.cmds <= r.cmds && st.pods <= r.pods
    ensures r.status.Running? ==>
      && st.status.Running?
      && |st.relayPool| >= 1 && r.relayPool == st.relayPool[..|st.relayPool| - 1]
      && n <= |st.ethPool| && r.ethPool == st.ethPool[..|st.ethPool| - n]
      && |r.pods| == |st.pods| + n
  {
    if !st.status.Running? then st
    else if st.relayPool == [] then st.(status := Raised(IndexError))
    else
      var relayIp := st.relayPool[|st.relayPool| - 1];
      var relays := st.relayPool[..|st.relayPool| - 1];
      if n > |st.ethPool| then st.(relayPool := relays, status := Raised(IndexError))
      else
        var chains := Popped(st.ethPool, n);
        var pool := st.ethPool[..|st.ethPool| - n];
        var j := LeakedJ(st.j, n);
        if j.None? then st.(relayPool := relays, ethPool := pool, status := Raised(NameError))
        else
          var dir := WorkDir(env.base, i, j.value);
          ChainsRun(Prepared(st.(relayPool := relays, ethPool := pool, j := j), dir, env), dir, relayIp, chains, env)
  }

  /** `rm -rf dir` then `cp -r base dir`: the directory holds fresh copies of
      the base directory's two files. */
  function Prepared(st: LState, dir: string, env: LegacyEnv): (r: LState)
    ensures HasBundle(r.files, dir)
  {
    st.(cmds := st.cmds + ["rm -rf " + dir, "cp -r " + env.base + " " + dir],
        files := st.files[PathJoin(dir, PierTomlFile) := env.pierToml][PathJoin(dir, EtherTomlFile) := env.etherToml])
  }

  /** The relay loop over the graph, as a left fold of `RelayStep`. */
  function LRun(graph: Provision.Graph, init: LState, env: LegacyEnv): (r: LState)
    ensures init.cmds <= r.cmds && init.pods <= r.pods
    ensures r.status.Running? ==> init.status.Running? && |r.relayPool| + |graph| == |init.relayPool|
  {
    if graph == [] then init
    else RelayStep(LRun(graph[..|graph| - 1], init, env), |graph| - 1, graph[|graph| - 1], env)
  }

  /** Before the loop: the parsed listings, `j` unbound, nothing done. */
  function Start(relayIps: seq<string>, ethIps: seq<string>): LState {
    LState(relayIps, ethIps, None, [], map[], [], Running)
  }

  /** The older `create_deployment_pier`, given the relay and geth pod
      listings, proved against `LRun`. A listing line too short for its IP
      column raises before anything is done. Nothing is written at the end. */
  method LegacyCreateDeploymentPier(graph: Provision.Graph, bitxhubOut: string, gethOut: string, env: LegacyEnv)
    returns (cmds: seq<string>, files: map<string, Toml>, pods: seq<LegacyPod>, status: Status)
    ensures PodListing.Parse(bitxhubOut).Raise? || PodListing.Parse(gethOut).Raise? ==>
      cmds == [] && files == map[] && pods == [] && status == Raised(IndexError)
    ensures PodListing.Parse(bitxhubOut).Ok? && PodListing.Parse(gethOut).Ok? ==>
      var st := LRun(graph, Start(PodListing.Parse(bitxhubOut).value.ips, PodListing.Parse(gethOut).value.ips), env);
      cmds == st.cmds && files == st.files && pods == st.pods && status == st.status
  {
    cmds, files, pods := [], map[], [];
    var relays := PodListing.Parse(bitxhubOut);
    if relays.Raise? {
      return cmds, files, pods, Raised(IndexError);
    }
    var geths := PodListing.Parse(gethOut);
    if geths.Raise? {
      return cmds, files, pods, Raised(IndexError);
    }
    var bitxhubIpList := relays.value.ips;
    var ethIpList := geths.value.ips;
    ghost var init := Start(bitxhubIpList, ethIpList);
    var j: Option<nat> := None;
    for i := 0 to |graph|
      invariant LRun(graph[..i], init, env) == LState(bitxhubIpList, ethIpList, j, cmds, files, pods, Running)
    {
      ghost var st := LState(bitxhubIpList, ethIpList, j, cmds, files, pods, Running);
      GraphStep(graph, i, init, env);
      var status;
      bitxhubIpList, ethIpList, j, cmds, files, pods, status :=
        RelayRound(st, i, graph[i], env, bitxhubIpList, ethIpList, j, cmds, files, pods);
      if !status.Running? {
        GraphStop(graph, i + 1, init, env);
        return cmds, files, pods, status;
      }
    }
    assert graph[..|graph|] == graph;
    return cmds, files, pods, Running;
  }

  /** One round of the relay loop, proved against `RelayStep`. */
  method RelayRound(ghost st: LState, i: nat, ethNum: nat, env: LegacyEnv,
                    bitxhubIpList0: seq<string>, ethIpList0: seq<string>, j0: Option<nat>,
                    cmds0: seq<string>, files0: map<string, Toml>, pods0: seq<LegacyPod>)
    returns (bitxhubIpList: seq<string>, ethIpList: seq<string>, j: Option<nat>,
             cmds: seq<string>, files: map<string, Toml>, pods: seq<LegacyPod>, status: Status)
    requires st == LState(bitxhubIpList0, ethIpList0, j0, cmds0, files0, pods0, Running)
    ensures var r := RelayStep(st, i, ethNum, env);
      r.cmds == cmds && r.files == files && r.pods == pods && r.status == status
    ensures status.Running? ==>
      RelayStep(st, i, ethNum, env) == LState(bitxhubIpList, ethIpList, j, cmds, files, pods, Running)
  {
    bitxhubIpList, ethIpList, j, cmds, files, pods := bitxhubIpList0, ethIpList0, j0, cmds0, files0, pods0;
    if bitxhubIpList == [] {
      return bitxhubIpList, ethIpList, j, cmds, files, pods, Raised(IndexError);
    }
    var bitxhubIp := bitxhubIpList[|bitxhubIpList| - 1];
    bitxhubIpList := bitxhubIpList[..|bitxhubIpList| - 1];
    var ethIps, rest, popped := PopChains(ethIpList, ethNum);
    if !popped {
      return bitxhubIpList, ethIpList, j, cmds, files, pods, Raised(IndexError);
    }
    ethIpList := rest;
    if ethNum > 0 {
      // the popping loop's variable after its last round
      j := Some(ethNum - 1);
    }
    if j.None? {
      return bitxhubIpList, ethIpList, j, cmds, files, pods, Raised(NameError);
    }
    var dir := env.base + NatToString(i) + NatToString(j.value);
    cmds := cmds + ["rm -rf " + dir, "cp -r " + env.base + " " + dir];
    files := files[PathJoin(dir, "pier.toml") := env.pierToml][PathJoin(dir, "ether/ethereum.toml") := env.etherToml];
    ghost var st1 := LState(bitxhubIpList, ethIpList, j, cmds, files, pods, Running);
    assert st1 == Prepared(st.(relayPool := bitxhubIpList, ethPool := ethIpList, j := j), dir, env);
    var configured;
    cmds, files, pods, configured := ConfigureChains(st1, dir, bitxhubIp, ethIps, env, cmds, files, pods);
    status := if configured then Running else Raised(KeyError);
  }

  /** The popping loop: `n` calls of `pop()`, the first on an empty pool
      raising IndexError. */
  method PopChains(pool: seq<string>, n: nat) returns (ethIps: seq<string>, rest: seq<string>, ok: bool)
    ensures ok <==> n <= |pool|
    ensures ok ==> ethIps == Popped(pool, n) && rest == pool[..|pool| - n]
  {
    ethIps, rest := [], pool;
    for k := 0 to n
      invariant k <= |pool| && rest == pool[..|pool| - k] && ethIps == Popped(pool, k)
    {
      if rest == [] {
        return ethIps, rest, false;
      }
      ethIps := ethIps + [rest[|rest| - 1]];
      rest := rest[..|rest| - 1];
    }
    return ethIps, rest, true;
  }

  /** The `enumerate(ethIps)` loop over one relay's chains, proved against
      `ChainsRun` from the state it starts in. It rebinds `j` to each chain
      index in turn and so leaves it where the popping loop did. */
  method ConfigureChains(ghost st: LState, dir: string, bitxhubIp: string, ethIps: seq<string>, env: LegacyEnv,
                         cmds0: seq<string>, files0: map<string, Toml>, pods0: seq<LegacyPod>)
    returns (cmds: seq<string>, files: map<string, Toml>, pods: seq<LegacyPod>, ok: bool)
    requires st.status.Running? && st.cmds == cmds0 && st.files == files0 && st.pods == pods0
    requires HasBundle(files0, dir)
    ensures ChainsRun(st, dir, bitxhubIp, ethIps, env)
         == st.(cmds := cmds, files := files, pods := pods, status := if ok then Running else Raised(KeyError))
  {
    cmds, files, pods := cmds0, files0, pods0;
    for k := 0 to |ethIps|
      invariant ChainsRun(st, dir, bitxhubIp, ethIps[..k], env)
             == st.(cmds := cmds, files := files, pods := pods)
    {
      var ethIp := ethIps[k];
      ghost var sk := st.(cmds := cmds, files := files, pods := pods);
      ChainsSnoc(st, dir, bitxhubIp, ethIps, k, env);
      if ethIp !in env.addrDoc {
        ChainsStop(st, dir, bitxhubIp, ethIps, k + 1, env);
        return cmds, files, pods, false;
      }
      cmds, files, pods := ConfigureChain(sk, dir, bitxhubIp, k, ethIp, env, cmds, files, pods);
    }
    assert ethIps[..|ethIps|] == ethIps;
    return cmds, files, pods, true;
  }
  /** The body of the inner loop for a chain in `addr.json`: the two files of
      the shared directory are rewritten for it, the directory is copied to
      the two fixed hosts, and a pod named after `k` is asked for. */
  method ConfigureChain(ghost sk: LState, dir: string, bitxhubIp: string, k: nat, ethIp: string, env: LegacyEnv,
                        cmds0: seq<string>, files0: map<string, Toml>, pods0: seq<LegacyPod>)
    returns (cmds: seq<string>, files: map<string, Toml>, pods: seq<LegacyPod>)
    requires sk.status.Running? && sk.cmds == cmds0 && sk.files == files0 && sk.pods == pods0
    requires HasBundle(files0, dir) && ethIp in env.addrDoc
    ensures ChainStep(sk, dir, bitxhubIp, k, ethIp, env) == sk.(cmds := cmds, files := files, pods := pods)
  {
    var pierPath := PathJoin(dir, PierTomlFile);
    files := files0[pierPath := RewriteLegacyPierToml(files0[pierPath], bitxhubIp, env.addrDoc[ethIp].id)];
    var etherPath := PathJoin(dir, EtherTomlFile);
    files := files[etherPath := RewriteEtherToml(files[etherPath], ethIp, env.addrDoc[ethIp].broker)];
    cmds := cmds0 + [LegacyScp(dir, ScpHostA, env.tempPath), LegacyScp(dir, ScpHostB, env.tempPath)];
    pods := pods0 + [LegacyPodFor(dir, k)];
  }


  lemma GraphStep(graph: Provision.Graph, i: nat, init: LState, env: LegacyEnv)
    requires i < |graph|
    ensures LRun(graph[..i + 1], init, env) == RelayStep(LRun(graph[..i], init, env), i, graph[i], env)
  {
    assert graph[..i + 1][..i] == graph[..i];
  }

  lemma GraphStop(graph: Provision.Graph, n: nat, init: LState, env: LegacyEnv)
    requires n <= |graph|
    requires !LRun(graph[..n], init, env).status.Running?
    ensures LRun(graph, init, env) == LRun(graph[..n], init, env)
  {
    LStoppedStaysStopped(graph[..n], graph, init, env);
  }

  lemma ChainsSnoc(st: LState, dir: string, relayIp: string, chains: seq<string>, k: nat, env: LegacyEnv)
    requires HasBundle(st.files, dir) && k < |chains|
    ensures ChainsRun(st, dir, relayIp, chains[..k + 1], env)
         == ChainStep(ChainsRun(st, dir, relayIp, chains[..k], env), dir, relayIp, k, chains[k], env)
  {
    assert chains[..k + 1][..k] == chains[..k];
  }

  lemma ChainsStop(st: LState, dir: string, relayIp: string, chains: seq<string>, n: nat, env: LegacyEnv)
    requires HasBundle(st.files, dir) && n <= |chains|
    requires !ChainsRun(st, dir, relayIp, chains[..n], env).status.Running?
    ensures ChainsRun(st, dir, relayIp, chains, env) == ChainsRun(st, dir, relayIp, chains[..n], env)
  {
    ChainsStoppedStaysStopped(st, dir, relayIp, chains[..n], chains, env);
  }

  lemma {:induction false} LStoppedStaysStopped(done: Provision.Graph, graph: Provision.Graph, init: LState, env: LegacyEnv)
    requires done <= graph
    requires !LRun(done, init, env).status.Running?
    ensures LRun(graph, init, env) == LRun(done, init, env)
    decreases |graph|
  {
    if |graph| > |done| {
      var h := graph[..|graph| - 1];
      assert done <= h;
      LStoppedStaysStopped(done, h, init, env);
    } else {
      assert graph == done;
    }
  }

  lemma {:induction false} ChainsStoppedStaysStopped(st: LState, dir: string, relayIp: string,
                                                     done: seq<string>, chains: seq<string>, env: LegacyEnv)
    requires HasBundle(st.files, dir) && done <= chains
    requires !ChainsRun(st, dir, relayIp, done, env).status.Running?
    ensures ChainsRun(st, dir, relayIp, chains, env) == ChainsRun(st, dir, relayIp, done, env)
    decreases |chains|
  {
    if |chains| > |done| {
      var h := chains[..|chains| - 1];
      assert done <= h;
      ChainsStoppedStaysStopped(st, dir, relayIp, done, h, env);
    } else {
      assert chains == done;
    }
  }

  // ---------------------------------------------------------------------------
  // Properties of the older pier loop
  // ---------------------------------------------------------------------------

  /** The pools are consumed from the back: after the first `n` relay nodes,
      the relay listing has lost its last `n` IPs and the geth listing its
      last `Sum(graph[..n])`. */
  lemma {:induction false} PoolsShrinkFromBack(graph: Provision.Graph, relayIps: seq<string>, ethIps: seq<string>, env: LegacyEnv)
    ensures var st := LRun(graph, Start(relayIps, ethIps), env);
      st.status.Running? ==>
        && |graph| <= |relayIps| && Provision.Sum(graph) <= |ethIps|
        && st.relayPool == relayIps[..|relayIps| - |graph|]
        && st.ethPool == ethIps[..|ethIps| - Provision.Sum(graph)]
  {
    if graph != [] {
      var h := graph[..|graph| - 1];
      PoolsShrinkFromBack(h, relayIps, ethIps, env);
      var st := LRun(h, Start(relayIps, ethIps), env);
      if LRun(graph, Start(relayIps, ethIps), env).status.Running? {
        RelayStepPools(st, |graph| - 1, graph[|graph| - 1], env);
        DropBackTwice(relayIps, |h|, 1);
        DropBackTwice(ethIps, Provision.Sum(h), graph[|graph| - 1]);
      }
    }
  }

  /** Dropping `a` and then `b` entries from the back drops `a + b`. */
  lemma DropBackTwice<T>(s: seq<T>, a: nat, b: nat)
    requires a + b <= |s|
    ensures s[..|s| - a][..|s| - a - b] == s[..|s| - (a + b)]
  {
  }

  /** One relay node that goes through pops one relay IP, the last one, and
      `n` chains, the last ones, last first. */
  lemma RelayStepPools(st: LState, i: nat, n: nat, env: LegacyEnv)
    requires RelayStep(st, i, n, env).status.Running?
    ensures st.status.Running? && st.relayPool != [] && n <= |st.ethPool|
    ensures RelayStep(st, i, n, env).relayPool == st.relayPool[..|st.relayPool| - 1]
    ensures RelayStep(st, i, n, env).ethPool == st.ethPool[..|st.ethPool| - n]
    ensures RelayStep(st, i, n, env).j == LeakedJ(st.j, n) && RelayStep(st, i, n, env).j.Some?
  {
  }

  /** Relay node i with `n > 0` chains works in `base + str(i) + str(n - 1)`
      and configures the last `n` geth IPs of the pool, last first, with the
      relay's IP, the last one of the relay pool. */
  lemma RelayStepDirectory(st: LState, i: nat, n: nat, env: LegacyEnv)
    requires st.status.Running? && st.relayPool != [] && 0 < n <= |st.ethPool|
    ensures var dir := WorkDir(env.base, i, n - 1);
      var relays := st.relayPool[..|st.relayPool| - 1];
      var pool := st.ethPool[..|st.ethPool| - n];
      RelayStep(st, i, n, env)
        == ChainsRun(Prepared(st.(relayPool := relays, ethPool := pool, j := Some(n - 1)), dir, env),
                     dir, st.relayPool[|st.relayPool| - 1], Popped(st.ethPool, n), env)
  {
  }

  /** When the first relay node anchors no chain, `j` has never been bound
      and the loop raises NameError before any command is run. */
  lemma UnboundJ(graph: Provision.Graph, relayIps: seq<string>, ethIps: seq<string>, env: LegacyEnv)
    requires graph != [] && graph[0] == 0 && relayIps != []
    ensures LRun(graph, Start(relayIps, ethIps), env).status == Raised(NameError)
    ensures LRun(graph, Start(relayIps, ethIps), env).cmds == []
  {
    var init := Start(relayIps, ethIps);
    assert graph[..1][..0] == [];
    assert LRun(graph[..1], init, env).status == Raised(NameError);
    LStoppedStaysStopped(graph[..1], graph, init, env);
  }

  /** A relay node with no chain after one that had chains reuses the leaked
      index: it prepares a directory named with the earlier relay's last
      chain index, and configures nothing in it. */
  lemma ChainlessRelayReusesJ(st: LState, i: nat, env: LegacyEnv, jp: nat)
    requires st.status.Running? && st.relayPool != [] && st.j == Some(jp)
    ensures var dir := WorkDir(env.base, i, jp);
      RelayStep(st, i, 0, env).cmds == st.cmds + ["rm -rf " + dir, "cp -r " + env.base + " " + dir]
      && RelayStep(st, i, 0, env).pods == st.pods
  {
    assert st.ethPool[..|st.ethPool| - 0] == st.ethPool;
  }

  /** The copies of a working directory to the two fixed hosts, once for
      each of `n` chains. */
  function Copies(dir: string, tempPath: string, n: nat): (c: seq<string>)
    ensures |c| == 2 * n
    ensures forall k :: 0 <= k < n ==>
      c[2 * k] == LegacyScp(dir, ScpHostA, tempPath) && c[2 * k + 1] == LegacyScp(dir, ScpHostB, tempPath)
  {
    if n == 0 then [] else Copies(dir, tempPath, n - 1) + [LegacyScp(dir, ScpHostA, tempPath), LegacyScp(dir, ScpHostB, tempPath)]
  }

  /** The pods of `n` chains configured in one working directory: pod k is
      named after k alone. */
  function ChainPods(dir: string, n: nat): (p: seq<LegacyPod>)
    ensures |p| == n && forall k :: 0 <= k < n ==> p[k] == LegacyPodFor(dir, k)
  {
    if n == 0 then [] else ChainPods(dir, n - 1) + [LegacyPodFor(dir, n - 1)]
  }

  /** The chains of one relay share its directory: every chain copies it to
      the two fixed hosts and asks for a pod named after its index only. */
  lemma {:induction false} SharedDirectory(st: LState, dir: string, relayIp: string, chains: seq<string>, env: LegacyEnv)
    requires HasBundle(st.files, dir) && st.status.Running?
    ensures var r := ChainsRun(st, dir, relayIp, chains, env);
      r.status.Running? ==>
        r.cmds == st.cmds + Copies(dir, env.tempPath, |chains|) && r.pods == st.pods + ChainPods(dir, |chains|)
    decreases |chains|
  {
    if chains != [] {
      var n := |chains| - 1;
      var h := chains[..n];
      SharedDirectory(st, dir, relayIp, h, env);
      var r := ChainsRun(st, dir, relayIp, h, env);
      if ChainsRun(st, dir, relayIp, chains, env).status.Running? {
        ChainAppends(r, dir, relayIp, n, chains[n], env);
        var copies := [LegacyScp(dir, ScpHostA, env.tempPath), LegacyScp(dir, ScpHostB, env.tempPath)];
        assert Copies(dir, env.tempPath, n + 1) == Copies(dir, env.tempPath, n) + copies;
        AppendAssoc(st.cmds, Copies(dir, env.tempPath, n), copies);
        assert ChainPods(dir, n + 1) == ChainPods(dir, n) + [LegacyPodFor(dir, n)];
        AppendAssoc(st.pods, ChainPods(dir, n), [LegacyPodFor(dir, n)]);
      }
    }
  }

  lemma AppendAssoc<T>(a: seq<T>, b: seq<T>, c: seq<T>)
    ensures a + b + c == a + (b + c)
  {
  }

  /** `files` holds the settings of chain `ip` of `doc`, written over the
      two files of `dir` in `before`. */
  predicate Rewritten(before: map<string, Toml>, files: map<string, Toml>, dir: string,
                      relayIp: string, ip: string, doc: map<string, Addr>) {
    && ip in doc && HasBundle(before, dir) && HasBundle(files, dir)
    && files[PathJoin(dir, PierTomlFile)] == RewriteLegacyPierToml(before[PathJoin(dir, PierTomlFile)], relayIp, doc[ip].id)
    && files[PathJoin(dir, EtherTomlFile)] == RewriteEtherToml(before[PathJoin(dir, EtherTomlFile)], ip, doc[ip].broker)
  }

  /** When all chains of a relay went through, its directory holds the
      settings of the last chain alone: each rewrite overwrites the one
      before. */
  lemma {:induction false} LastChainWins(st: LState, dir: string, relayIp: string, chains: seq<string>, env: LegacyEnv)
    requires HasBundle(st.files, dir) && st.status.Running? && chains != []
    ensures var r := ChainsRun(st, dir, relayIp, chains, env);
      r.status.Running? ==> Rewritten(st.files, r.files, dir, relayIp, chains[|chains| - 1], env.addrDoc)
    decreases |chains|
  {
    var n := |chains| - 1;
    var h := chains[..n];
    var r := ChainsRun(st, dir, relayIp, h, env);
    var r' := ChainsRun(st, dir, relayIp, chains, env);
    if r'.status.Running? {
      ChainRewrites(r, dir, relayIp, n, chains[n], env);
      if h != [] {
        LastChainWins(st, dir, relayIp, h, env);
        ChainsUpdate(st.files, r.files, r'.files, dir, relayIp, h[|h| - 1], chains[n], env.addrDoc);
      }
    }
  }

  /** Two rewrites in a row leave the second's settings in both files. */
  lemma ChainsUpdate(f0: map<string, Toml>, f1: map<string, Toml>, f2: map<string, Toml>, dir: string,
                     relayIp: string, ip1: string, ip2: string, doc: map<string, Addr>)
    requires Rewritten(f0, f1, dir, relayIp, ip1, doc) && Rewritten(f1, f2, dir, relayIp, ip2, doc)
    ensures Rewritten(f0, f2, dir, relayIp, ip2, doc)
  {
    var pp, ep := PathJoin(dir, PierTomlFile), PathJoin(dir, EtherTomlFile);
    LegacyRewritesOverwrite(f0[pp], relayIp, doc[ip1].id, relayIp, doc[ip2].id);
    EtherRewritesOverwrite(f0[ep], ip1, doc[ip1].broker, ip2, doc[ip2].broker);
  }

  /** What one configured chain adds to the state. */
  lemma ChainAppends(st: LState, dir: string, relayIp: string, k: nat, ethIp: string, env: LegacyEnv)
    requires HasBundle(st.files, dir)
    requires ChainStep(st, dir, relayIp, k, ethIp, env).status.Running?
    ensures var r := ChainStep(st, dir, relayIp, k, ethIp, env);
      && st.status.Running? && ethIp in env.addrDoc
      && r.cmds == st.cmds + [LegacyScp(dir, ScpHostA, env.tempPath), LegacyScp(dir, ScpHostB, env.tempPath)]
      && r.pods == st.pods + [LegacyPodFor(dir, k)]
  {
  }

  /** What one configured chain writes into the two files. */
  lemma ChainRewrites(st: LState, dir: string, relayIp: string, k: nat, ethIp: string, env: LegacyEnv)
    requires HasBundle(st.files, dir)
    requires ChainStep(st, dir, relayIp, k, ethIp, env).status.Running?
    ensures st.status.Running?
    ensures Rewritten(st.files, ChainStep(st, dir, relayIp, k, ethIp, env).files, dir, relayIp, ethIp, env.addrDoc)
  {
    TomlPathsDistinct(dir);
  }
}
