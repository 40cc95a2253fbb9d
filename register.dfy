/** `PrivateNetwork.register` (k8s/main.py:490-567): for every pier pod of
    the namespace, copy the `bitxhub` binary into it, read its address, fund
    it from the relay's first validator, register the appchain and its
    transfer service, and have the three validators approve both proposals.
    Only the address is read from any command's output; nothing else is
    checked, so a failed registration or vote goes unnoticed. */
module Register {

  import opened Outcome
  import opened Text
  import PodListing
  import Deploy
  import Pier
  import ContractTool

  type Tool = ContractTool.Tool

  /** `exec_cmd`: a command line run inside a pod of the namespace. */
  function Exec(ns: string, pod: string, cmd: string): (c: string)
  {
    ExecHead + pod + NsFlag + ns + " -- " + cmd
  }

  const ExecHead: string := "kubectl exec -it "
  const NsFlag: string := " -n "

  /** The copy of the `bitxhub` binary into the pier pod (run with
      `os.system`, its output is not read). */
  function CopyCmd(bitxhubPath: string, pod: string, ns: string): (c: string)
  {
    "kubectl cp " + bitxhubPath + " " + pod + BinDir + ns
  }

  const BinDir: string := ":/usr/local/bin -n "

  /** Prints the pier's account; its address is the last word of the output. */
  const KeyShow: string := "bitxhub key show --path /root/.pier/key.json | grep address"

  /** Funds the pier's account from validator node1. */
  function FundCmd(pierId: string): (c: string)
  {
    FundHead + pierId + FundAmount
  }

  const FundHead: string := "bitxhub client transfer --key /root/bitxhub/scripts/build/node1/key.json --to "
  const FundAmount: string := " --amount 100000000000000000"

  const RegisterHead: string := "pier --repo /root/.pier appchain register --appchain-id \""
  const RegisterReason: string := " --reason \"reason\""
  const RegisterTrust: string := "\" --type \""
  const RegisterBroker: string := "\" --trustroot /root/.pier/ether/ether.validators --broker "
  const RegisterTail: string :=
    " --desc \"desc\" --master-rule \"0x00000000000000000000000000000000000000a2\" --rule-url \"http://github.com\" --admin "

  /** The appchain registration: id, name and type from `pier_<ns>.json`, the
      broker from `deploy_<ns>.json`, the pier's account as admin. */
  function AppchainRegisterCmd(e: Pier.PierEntry, broker: string, pierId: string): (c: string)
  {
    RegisterHead + e.appchainId + "\" --name \"" + e.appchainName + RegisterTrust + e.appchainType
      + RegisterBroker + broker + RegisterTail + pierId + RegisterReason
  }

  /** Validator `node` approves proposal `proposal`. */
  function VoteCmd(node: nat, proposal: string): (c: string)
  {
    VoteHead + NatToString(node) + VoteId + proposal + VoteTail
  }

  const VoteHead: string := "bitxhub --repo /root/bitxhub/scripts/build/node"
  const VoteId: string := " client governance vote --id "
  const VoteTail: string := " --info approve --reason approve"

  /** The service registration: the transfer contract is the service id.
      The details and reason options are not separated by a space. */
  function ServiceRegisterCmd(appchainId: string, serviceId: string, name: string): (c: string)
  {
    ServiceHead + appchainId + "\" --service-id \"" + serviceId + "\" --name \"" + name + ServiceTail
  }

  const ServiceHead: string := "pier --repo /root/.pier appchain service register --appchain-id \""
  const ServiceTail: string := "\" --intro \"\" --type CallContract --permit \"\" --details \"test\"--reason \"reason\""

  /** The three approvals of one proposal, run in the relay's pod. */
  function Votes(ns: string, bitxhubName: string, proposal: string): (vs: seq<string>)
    ensures |vs| == 3
    ensures forall k :: 0 <= k < 3 ==> vs[k] == Exec(ns, bitxhubName, VoteCmd(k + 1, proposal))
  {
    seq(3, k requires 0 <= k < 3 => Exec(ns, bitxhubName, VoteCmd(k + 1, proposal)))
  }

  /** What the loop reads but never changes: the namespace, `config["bitxhub"]`,
      `pier_<ns>.json` and `deploy_<ns>.json`. */
  datatype Env = Env(ns: string, bitxhubPath: string, pierDoc: map<string, Pier.PierEntry>,
                     deployDoc: map<string, Deploy.Deployment>)

  /** The eleven command lines of a pier that goes through. */
  function Block(env: Env, pod: string, pierId: string): (b: seq<string>)
    requires pod in env.pierDoc && env.pierDoc[pod].appchainIp in env.deployDoc
    ensures |b| == 11
  {
    [CopyCmd(env.bitxhubPath, pod, env.ns), Exec(env.ns, pod, KeyShow),
     Exec(env.ns, env.pierDoc[pod].bitxhubName, FundCmd(pierId))]
    + Registration(env, pod, pierId)
  }

  /** The two proposals of a funded pier and their approvals. */
  function Registration(env: Env, pod: string, pierId: string): (r: seq<string>)
    requires pod in env.pierDoc && env.pierDoc[pod].appchainIp in env.deployDoc
    ensures |r| == 8
  {
    var e := env.pierDoc[pod];
    var dep := env.deployDoc[e.appchainIp];
    [Exec(env.ns, pod, AppchainRegisterCmd(e, dep.broker, pierId))]
    + Votes(env.ns, e.bitxhubName, pierId + "-0")
    + [Exec(env.ns, pod, ServiceRegisterCmd(e.appchainId, dep.transfer, "service-" + pod))]
    + Votes(env.ns, e.bitxhubName, pierId + "-1")
  }

  datatype Status = Running | Raised(exc: Exc)

  /** The command lines run so far, and whether the loop has stopped. */
  datatype State = State(cmds: seq<string>, status: Status)

  /** One pier pod. A pod missing from `pier_<ns>.json` raises KeyError after
      the copy; a key show that prints nothing raises IndexError; a chain
      missing from `deploy_<ns>.json` raises KeyError after the account was
      funded. */
  function Step(st: State, pod: string, env: Env, run: Tool): (r: State)
    ensures !st.status.Running? ==> r == st
    ensures st.cmds <= r.cmds
    ensures st.status.Running? && r.status.Running? ==> |r.cmds| == |st.cmds| + 11
    ensures st.status.Running? && !r.status.Running? ==> |st.cmds| < |r.cmds| <= |st.cmds| + 3
    ensures st.status.Running? ==>
      var copy := CopyCmd(env.bitxhubPath, pod, env.ns);
      var show := Exec(env.ns, pod, KeyShow);
      && (r.status.Running? <==> GoesThrough(env, run, pod))
      && (pod !in env.pierDoc ==> r == State(st.cmds + [copy], Raised(KeyError)))
      && (pod in env.pierDoc && PierId(env, run, pod).None? ==>
            r == State(st.cmds + [copy, show], Raised(IndexError)))
      && (pod in env.pierDoc && PierId(env, run, pod).Some? && env.pierDoc[pod].appchainIp !in env.deployDoc ==>
            r == State(st.cmds + [copy, show, Exec(env.ns, env.pierDoc[pod].bitxhubName,
                                                   FundCmd(PierId(env, run, pod).value))], Raised(KeyError)))
      && (GoesThrough(env, run, pod) ==> r == State(st.cmds + BlockOf(env, run, pod), Running))
  {
    if !st.status.Running? then st
    else
      var copied := st.cmds + [CopyCmd(env.bitxhubPath, pod, env.ns)];
      if pod !in env.pierDoc then State(copied, Raised(KeyError))
      else
        var e := env.pierDoc[pod];
        var show := Exec(env.ns, pod, KeyShow);
        var shown := copied + [show];
        match LastWord(run(show))
        case None => State(shown, Raised(IndexError))
        case Some(pierId) =>
          var funded := shown + [Exec(env.ns, e.bitxhubName, FundCmd(pierId))];
          if e.appchainIp !in env.deployDoc then State(funded, Raised(KeyError))
          else State(funded + Registration(env, pod, pierId), Running)
  }

  /** A pier that goes through adds its block. */
  lemma StepAddsBlock(st: State, pod: string, env: Env, run: Tool)
    requires st.status.Running? && pod in env.pierDoc && env.pierDoc[pod].appchainIp in env.deployDoc
    requires LastWord(run(Exec(env.ns, pod, KeyShow))).Some?
    ensures Step(st, pod, env, run)
         == State(st.cmds + Block(env, pod, LastWord(run(Exec(env.ns, pod, KeyShow))).value), Running)
  {
  }

  /** The loop over the pier pods, as a left fold of `Step`. */
  function Run(pods: seq<string>, env: Env, run: Tool): (r: State)
    ensures |r.cmds| <= 11 * |pods|
    ensures r.status.Running? ==> |r.cmds| == 11 * |pods|
  {
    if pods == [] then State([], Running) else Step(Run(pods[..|pods| - 1], env, run), pods[|pods| - 1], env, run)
  }

  /** `[item.split()[0] for item in out.split('\n') if item != '']`: the pier
      pod names, one per non-empty line of `kubectl get pods -o wide | grep pier`. */
  function PierPods(out: string): (r: Result<seq<string>>)
    ensures var t := PodListing.Table(PodListing.Rows(out));
      && (r.Ok? <==> forall k :: 0 <= k < |t| ==> t[k] != [])
      && (r.Ok? ==> |r.value| == |t| && forall k :: 0 <= k < |t| ==> r.value[k] == t[k][0])
  {
    var t := PodListing.Table(PodListing.Rows(out));
    assert forall k :: 0 <= k < |t| ==> (At(t[k], 0).Ok? <==> t[k] != []);
    PodListing.Column(t, 0)
  }

  /** `register` itself, given the pier pod listing, proved against `Run`.
      A listing line of blanks only raises IndexError before any command. */
  method Register(env: Env, pierInfo: string, run: Tool) returns (cmds: seq<string>, status: Status)
    ensures PierPods(pierInfo).Raise? ==> cmds == [] && status == Raised(IndexError)
    ensures PierPods(pierInfo).Ok? ==> State(cmds, status) == Run(PierPods(pierInfo).value, env, run)
  {
    cmds := [];
    var names := PierPods(pierInfo);
    if names.Raise? {
      return cmds, Raised(IndexError);
    }
    var pierNameList := names.value;
    for i := 0 to |pierNameList|
      invariant Run(pierNameList[..i], env, run) == State(cmds, Running)
    {
      RunSnoc(pierNameList, i, env, run);
      cmds, status := HandlePier(env, pierNameList[i], run, cmds);
      if !status.Running? {
        StoppedStaysStopped(pierNameList[..i + 1], pierNameList, env, run);
        return cmds, status;
      }
    }
    assert pierNameList[..|pierNameList|] == pierNameList;
    return cmds, Running;
  }

  /** The body of the loop for one pier pod, proved against `Step`. */
  method HandlePier(env: Env, pierName: string, run: Tool, cmds0: seq<string>) returns (cmds: seq<string>, status: Status)
    ensures Step(State(cmds0, Running), pierName, env, run) == State(cmds, status)
  {
    cmds := cmds0 + [CopyCmd(env.bitxhubPath, pierName, env.ns)];
    if pierName !in env.pierDoc {
      return cmds, Raised(KeyError);
    }
    var e := env.pierDoc[pierName];
    var show := Exec(env.ns, pierName, KeyShow);
    cmds := cmds + [show];
    var id := LastWord(run(show));
    if id.None? {
      return cmds, Raised(IndexError);
    }
    var pierId := id.value;
    cmds := cmds + [Exec(env.ns, e.bitxhubName, FundCmd(pierId))];
    if e.appchainIp !in env.deployDoc {
      return cmds, Raised(KeyError);
    }
    cmds := RegisterAppchain(env, pierName, pierId, cmds);
    return cmds, Running;
  }

  /** The registrations of a funded pier, proved against `Registration`. */
  method RegisterAppchain(env: Env, pierName: string, pierId: string, cmds0: seq<string>) returns (cmds: seq<string>)
    requires pierName in env.pierDoc && env.pierDoc[pierName].appchainIp in env.deployDoc
    ensures cmds == cmds0 + Registration(env, pierName, pierId)
  {
    var e := env.pierDoc[pierName];
    var dep := env.deployDoc[e.appchainIp];
    cmds := cmds0 + [Exec(env.ns, pierName, AppchainRegisterCmd(e, dep.broker, pierId))];
    cmds := Vote(cmds, env.ns, e.bitxhubName, pierId + "-0");
    cmds := cmds + [Exec(env.ns, pierName, ServiceRegisterCmd(e.appchainId, dep.transfer, "service-" + pierName))];
    cmds := Vote(cmds, env.ns, e.bitxhubName, pierId + "-1");
  }

  /** `for nodeId in range(1, 4)`: the three validators approve a proposal. */
  method Vote(cmds0: seq<string>, ns: string, bitxhubName: string, proposal: string) returns (cmds: seq<string>)
    ensures cmds == cmds0 + Votes(ns, bitxhubName, proposal)
  {
    cmds := cmds0;
    for nodeId := 1 to 4
      invariant cmds == cmds0 + Votes(ns, bitxhubName, proposal)[..nodeId - 1]
    {
      cmds := cmds + [Exec(ns, bitxhubName, VoteCmd(nodeId, proposal))];
    }
    assert Votes(ns, bitxhubName, proposal)[..3] == Votes(ns, bitxhubName, proposal);
  }

  /** One more pod of the listing is one more step. */
  lemma RunSnoc(pods: seq<string>, i: nat, env: Env, run: Tool)
    requires i < |pods|
    ensures Run(pods[..i + 1], env, run) == Step(Run(pods[..i], env, run), pods[i], env, run)
  {
    assert pods[..i + 1][..i] == pods[..i];
  }

  lemma {:induction false} StoppedStaysStopped(done: seq<string>, pods: seq<string>, env: Env, run: Tool)
    requires done <= pods
    requires !Run(done, env, run).status.Running?
    ensures Run(pods, env, run) == Run(done, env, run)
    decreases |pods|
  {
    if |pods| > |done| {
      var h := pods[..|pods| - 1];
      assert done <= h;
      StoppedStaysStopped(done, h, env, run);
    } else {
      assert pods == done;
    }
  }

  // ---------------------------------------------------------------------------
  // Shapes of the command lines
  // ---------------------------------------------------------------------------

  /** A command run in a pod starts by naming the pod and ends with the command. */
  lemma ExecShape(ns: string, pod: string, cmd: string)
    ensures ExecHead + pod <= Exec(ns, pod, cmd)
    ensures var c := Exec(ns, pod, cmd); |cmd| < |c| && c[|c| - |cmd|..] == cmd
  {
    var c := Exec(ns, pod, cmd);
    assert c == (ExecHead + pod + NsFlag + ns + " -- ") + cmd;
  }

  /** The copy names the binary and the pod it goes to. */
  lemma CopyShape(bitxhubPath: string, pod: string, ns: string)
    ensures "kubectl cp " + bitxhubPath + " " + pod <= CopyCmd(bitxhubPath, pod, ns)
  {
  }

  /** The funding names the pier's account right after the validator's key. */
  lemma FundShape(pierId: string)
    ensures FundHead + pierId <= FundCmd(pierId)
  {
  }

  /** The appchain registration names the chain's id first. */
  lemma AppchainRegisterShape(e: Pier.PierEntry, broker: string, pierId: string)
    ensures RegisterHead + e.appchainId <= AppchainRegisterCmd(e, broker, pierId)
  {
  }

  /** The vote is run in the repository of validator `node`. */
  lemma VoteShape(node: nat, proposal: string)
    ensures VoteHead + NatToString(node) <= VoteCmd(node, proposal)
  {
  }

  /** The service registration names the chain's id first. */
  lemma ServiceRegisterShape(appchainId: string, serviceId: string, name: string)
    ensures ServiceHead + appchainId <= ServiceRegisterCmd(appchainId, serviceId, name)
  {
  }

  // ---------------------------------------------------------------------------
  // Properties of the registration loop
  // ---------------------------------------------------------------------------

  /** The account a pier pod reports, if it reports one. */
  function PierId(env: Env, run: Tool, pod: string): Option<string> {
    LastWord(run(Exec(env.ns, pod, KeyShow)))
  }

  /** A pier pod the loop goes through: it is in `pier_<ns>.json`, its chain
      in `deploy_<ns>.json`, and it reports an account. */
  predicate GoesThrough(env: Env, run: Tool, pod: string) {
    && pod in env.pierDoc && env.pierDoc[pod].appchainIp in env.deployDoc
    && PierId(env, run, pod).Some?
  }

  /** The eleven commands of a pier: the copy, the key show in the pier pod,
      the funding by node1 in the relay pod, the appchain registration with
      the chain's broker and the pier's account as admin, the approvals of
      `<account>-0` by node1 to node3, the service registration whose id is the
      chain's transfer contract, and the approvals of `<account>-1`. */
  lemma BlockShape(env: Env, pod: string, pierId: string)
    requires pod in env.pierDoc && env.pierDoc[pod].appchainIp in env.deployDoc
    ensures var b := Block(env, pod, pierId);
      var e := env.pierDoc[pod];
      var dep := env.deployDoc[e.appchainIp];
      && |b| == 11
      && b[0] == CopyCmd(env.bitxhubPath, pod, env.ns)
      && b[1] == Exec(env.ns, pod, KeyShow)
      && b[2] == Exec(env.ns, e.bitxhubName, FundCmd(pierId))
      && b[3] == Exec(env.ns, pod, AppchainRegisterCmd(e, dep.broker, pierId))
      && b[4..7] == Votes(env.ns, e.bitxhubName, pierId + "-0")
      && b[7] == Exec(env.ns, pod, ServiceRegisterCmd(e.appchainId, dep.transfer, "service-" + pod))
      && b[8..] == Votes(env.ns, e.bitxhubName, pierId + "-1")
  {
    var e := env.pierDoc[pod];
    var r := Registration(env, pod, pierId);
    assert r[1..4] == Votes(env.ns, e.bitxhubName, pierId + "-0");
    assert r[5..] == Votes(env.ns, e.bitxhubName, pierId + "-1");
  }

  /** Every command of a block but the copy runs inside a pod. */
  lemma BlockRunsInPods(env: Env, pod: string, pierId: string)
    requires pod in env.pierDoc && env.pierDoc[pod].appchainIp in env.deployDoc
    ensures forall k :: 1 <= k < 11 ==> ExecHead <= Block(env, pod, pierId)[k]
  {
    BlockShape(env, pod, pierId);
  }

  /** The block of a pier that goes through, naming the account it reported. */
  function BlockOf(env: Env, run: Tool, pod: string): (b: seq<string>)
    requires GoesThrough(env, run, pod)
  {
    Block(env, pod, PierId(env, run, pod).value)
  }

  /** The blocks of a listing whose every pier goes through, end to end. */
  function Blocks(pods: seq<string>, env: Env, run: Tool): (r: seq<string>)
    requires forall k :: 0 <= k < |pods| ==> GoesThrough(env, run, pods[k])
    ensures |r| == 11 * |pods|
  {
    if pods == [] then [] else Blocks(pods[..|pods| - 1], env, run) + BlockOf(env, run, pods[|pods| - 1])
  }

  /** When every pier goes through, the loop runs its blocks to the end. */
  lemma {:induction false} RunIsBlocks(pods: seq<string>, env: Env, run: Tool)
    requires forall k :: 0 <= k < |pods| ==> GoesThrough(env, run, pods[k])
    ensures Run(pods, env, run) == State(Blocks(pods, env, run), Running)
  {
    if pods != [] {
      var n := |pods| - 1;
      RunIsBlocks(pods[..n], env, run);
      StepAddsBlock(Run(pods[..n], env, run), pods[n], env, run);
    }
  }

  /** Block k of the blocks is the block of pier k. */
  lemma {:induction false} BlocksAt(pods: seq<string>, env: Env, run: Tool, k: nat)
    requires forall k :: 0 <= k < |pods| ==> GoesThrough(env, run, pods[k])
    requires k < |pods|
    ensures Blocks(pods, env, run)[11 * k..11 * k + 11] == BlockOf(env, run, pods[k])
  {
    var n := |pods| - 1;
    var h := pods[..n];
    if k < n {
      BlocksAt(h, env, run, k);
      assert h[k] == pods[k];
    }
    BlockAt(Blocks(h, env, run), BlockOf(env, run, pods[n]), n, k);
  }

  /** When every pier goes through, the loop runs one block per pier, in
      listing order, each naming the account that pier reported. */
  lemma AllRegistered(pods: seq<string>, env: Env, run: Tool)
    requires forall k :: 0 <= k < |pods| ==> GoesThrough(env, run, pods[k])
    ensures var r := Run(pods, env, run);
      && r.status.Running? && |r.cmds| == 11 * |pods|
      && forall k :: 0 <= k < |pods| ==> r.cmds[11 * k..11 * k + 11] == BlockOf(env, run, pods[k])
  {
    RunIsBlocks(pods, env, run);
    forall k | 0 <= k < |pods|
      ensures Blocks(pods, env, run)[11 * k..11 * k + 11] == BlockOf(env, run, pods[k])
    {
      BlocksAt(pods, env, run, k);
    }
  }

  /** Block k of a list of blocks with one more block appended. */
  lemma BlockAt(c: seq<string>, b: seq<string>, n: nat, k: nat)
    requires |c| == 11 * n && |b| == 11 && k <= n
    ensures (c + b)[11 * k..11 * k + 11] == if k < n then c[11 * k..11 * k + 11] else b
  {
    if k < n {
      assert 11 * k + 11 <= 11 * n;
    }
  }

  /** Two tools that print the same address for every key show. */
  ghost predicate AgreeOnKeyShow(env: Env, run1: Tool, run2: Tool) {
    forall pod :: run1(Exec(env.ns, pod, KeyShow)) == run2(Exec(env.ns, pod, KeyShow))
  }

  /** The key show is the only command whose output is read: what the
      fundings, registrations and votes print changes nothing. */
  lemma {:induction false} OnlyKeyShowIsRead(pods: seq<string>, env: Env, run1: Tool, run2: Tool)
    requires AgreeOnKeyShow(env, run1, run2)
    ensures Run(pods, env, run1) == Run(pods, env, run2)
  {
    if pods != [] {
      OnlyKeyShowIsRead(pods[..|pods| - 1], env, run1, run2);
      assert run1(Exec(env.ns, pods[|pods| - 1], KeyShow)) == run2(Exec(env.ns, pods[|pods| - 1], KeyShow));
    }
  }

  /** Commands are only ever added: the commands of a prefix of the listing
      are a prefix of the commands of the whole listing. */
  lemma {:induction false} CommandsGrow(done: seq<string>, pods: seq<string>, env: Env, run: Tool)
    requires done <= pods
    ensures Run(done, env, run).cmds <= Run(pods, env, run).cmds
    decreases |pods|
  {
    if |pods| > |done| {
      var h := pods[..|pods| - 1];
      assert done <= h;
      CommandsGrow(done, h, env, run);
    } else {
      assert pods == done;
    }
  }

  /** A chain missing from `deploy_<ns>.json` is noticed only after its pier
      was funded: the loop stops with the funding as its last command and no
      registration. */
  lemma FundedBeforeLookup(st: State, pod: string, env: Env, run: Tool)
    requires st.status.Running? && pod in env.pierDoc && PierId(env, run, pod).Some?
    requires env.pierDoc[pod].appchainIp !in env.deployDoc
    ensures var r := Step(st, pod, env, run);
      && r.status == Raised(KeyError) && |r.cmds| == |st.cmds| + 3
      && r.cmds[|r.cmds| - 1] == Exec(env.ns, env.pierDoc[pod].bitxhubName, FundCmd(PierId(env, run, pod).value))
  {
  }

  /** The loop runs to the end exactly when every pier of the listing goes
      through. */
  lemma {:induction false} RunningIffAllGoThrough(pods: seq<string>, env: Env, run: Tool)
    ensures Run(pods, env, run).status.Running? <==> forall k :: 0 <= k < |pods| ==> GoesThrough(env, run, pods[k])
  {
    if pods != [] {
      var n := |pods| - 1;
      var h := pods[..n];
      RunningIffAllGoThrough(h, env, run);
      assert forall k :: 0 <= k < n ==> h[k] == pods[k];
    }
  }

  /** The loop stops at the first pier that does not go through: the piers
      before it have run their blocks, and that pier's own step, as `Step`
      describes it, ends the run. */
  lemma FirstFailureStops(pods: seq<string>, env: Env, run: Tool, k: nat)
    requires k < |pods| && !GoesThrough(env, run, pods[k])
    requires forall m :: 0 <= m < k ==> GoesThrough(env, run, pods[m])
    ensures Run(pods, env, run) == Step(State(Blocks(pods[..k], env, run), Running), pods[k], env, run)
    ensures !Run(pods, env, run).status.Running?
  {
    assert forall m :: 0 <= m < k ==> pods[..k][m] == pods[m];
    RunIsBlocks(pods[..k], env, run);
    RunSnoc(pods, k, env, run);
    StoppedStaysStopped(pods[..k + 1], pods, env, run);
  }
}
