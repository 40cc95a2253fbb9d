/** `PrivateNetwork.deploy` (k8s/main.py:323-361): for every geth appchain of
    the graph document, in document order, deploy a broker and a transfer
    contract with `goduck`, audit the transfer contract, and record the result
    under the chain's IP; `deploy_<ns>.json` is written only when every chain
    went through. */
module Deploy {

  import opened Outcome
  import opened Text
  import opened ContractTool
  import Resolve

  /** One geth appchain to deploy to, with the relay it is anchored at. */
  datatype Job = Job(ethIp: string, bitxhubId: string)

  /** An entry of `deploy_<ns>.json`. */
  datatype Deployment = Deployment(broker: string, transfer: string, id: string, bitxhubId: string)

  /** The appchain name the k-th deployed chain is registered under. */
  function AppchainName(k: nat): string {
    "ethappchain" + NatToString(k)
  }

  /** The appchains of one relay node, in `chainIpList` order. */
  function JobsOf(node: Resolve.RelayNode): (js: seq<Job>)
    ensures |js| == |node.chainIpList|
    ensures forall k :: 0 <= k < |js| ==> js[k] == Job(node.chainIpList[k], node.bitxhubId)
  {
    seq(|node.chainIpList|, k requires 0 <= k < |node.chainIpList| => Job(node.chainIpList[k], node.bitxhubId))
  }

  /** The appchains of the whole document, relay node after relay node. */
  function Jobs(doc: seq<Resolve.RelayNode>): seq<Job> {
    if doc == [] then [] else Jobs(doc[..|doc| - 1]) + JobsOf(doc[|doc| - 1])
  }

  datatype Status = Running | Returned | Raised(exc: Exc)

  /** The state of the loop: the document built so far, the counter
      `appchainId`, the command lines run so far, and whether the loop has
      stopped. */
  datatype State = State(doc: map<string, Deployment>, next: nat, cmds: seq<string>, status: Status)

  /** One chain: once the loop has stopped nothing more happens. */
  function Step(st: State, job: Job, run: Tool): (r: State)
    ensures !st.status.Running? ==> r == st
    ensures st.cmds <= r.cmds
    ensures !r.status.Running? ==> r.doc == st.doc && r.next == st.next
    ensures st.status.Running? && r.status.Running? ==>
      && r.next == st.next + 1
      && r.doc.Keys == st.doc.Keys + {job.ethIp}
      && r.doc[job.ethIp].id == AppchainName(st.next)
      && r.doc[job.ethIp].bitxhubId == job.bitxhubId
    ensures st.status.Running? && r.status.Running? ==>
      && r.doc == st.doc[job.ethIp := r.doc[job.ethIp]]
      && LastWord(run(BrokerCmd(job.ethIp, job.bitxhubId, NatToString(st.next)))) == Some(r.doc[job.ethIp].broker)
      && LastWord(run(TransferCmd(job.ethIp, r.doc[job.ethIp].broker))) == Some(r.doc[job.ethIp].transfer)
  {
    if !st.status.Running? then st
    else
      var (cs, out) := DeployChain(job.ethIp, job.bitxhubId, NatToString(st.next), run);
      match out
      case BrokerEmpty => st.(cmds := st.cmds + cs, status := Returned)
      case Crashed => st.(cmds := st.cmds + cs, status := Raised(IndexError))
      case Deployed(b, t) =>
        State(st.doc[job.ethIp := Deployment(b, t, AppchainName(st.next), job.bitxhubId)],
              st.next + 1, st.cmds + cs, Running)
  }

  /** The loop over a list of chains, as a left fold of `Step`, with the
      counter starting at `first`. */
  function Run(jobs: seq<Job>, first: nat, run: Tool): (r: State)
    ensures first <= r.next <= first + |jobs|
    ensures r.status.Running? ==> r.next == first + |jobs|
    ensures forall ip <- r.doc :: exists k :: 0 <= k < |jobs| && jobs[k].ethIp == ip
  {
    if jobs == [] then State(map[], first, [], Running)
    else
      var init := jobs[..|jobs| - 1];
      var st := Run(init, first, run);
      assert forall k :: 0 <= k < |init| ==> init[k] == jobs[k];
      Step(st, jobs[|jobs| - 1], run)
  }

  /** What a call to `deploy` leaves: `deploy_<ns>.json`, or nothing because
      it returned early or raised. */
  datatype Report = Written(doc: map<string, Deployment>) | EarlyReturn | Failed(exc: Exc)

  function Finish(st: State): Report {
    match st.status
    case Running => Written(st.doc)
    case Returned => EarlyReturn
    case Raised(e) => Failed(e)
  }

  /** `deploy` itself, proved against `Run` over `Jobs(graphDoc)`. */
  method Deploy(graphDoc: seq<Resolve.RelayNode>, run: Tool) returns (cmds: seq<string>, res: Report)
    ensures cmds == Run(Jobs(graphDoc), 0, run).cmds
    ensures res == Finish(Run(Jobs(graphDoc), 0, run))
  {
    var d: map<string, Deployment> := map[];
    var appchainId: nat := 0;
    cmds := [];
    for i := 0 to |graphDoc|
      invariant Run(Jobs(graphDoc[..i]), 0, run) == State(d, appchainId, cmds, Running)
    {
      var item := graphDoc[i];
      var bitxhubId := item.bitxhubId;
      DoneStart(graphDoc, i);
      for j := 0 to |item.chainIpList|
        invariant Run(Done(graphDoc, i, j), 0, run) == State(d, appchainId, cmds, Running)
      {
        var ethIp := item.chainIpList[j];
        ghost var st := State(d, appchainId, cmds, Running);
        ghost var job := Job(ethIp, bitxhubId);
        DoneStep(graphDoc, i, j, 0, run);
        var cs, out := DeployOnChain(ethIp, bitxhubId, NatToString(appchainId), run);
        cmds := cmds + cs;
        match out
        case BrokerEmpty =>
          DoneStops(graphDoc, i, j + 1, 0, run);
          return cmds, EarlyReturn;
        case Crashed =>
          DoneStops(graphDoc, i, j + 1, 0, run);
          return cmds, Failed(IndexError);
        case Deployed(broker, transfer) =>
          d := d[ethIp := Deployment(broker, transfer, "ethappchain" + NatToString(appchainId), bitxhubId)];
          appchainId := appchainId + 1;
          assert Step(st, job, run) == State(d, appchainId, cmds, Running);
      }
      DoneEnd(graphDoc, i);
    }
    assert graphDoc[..|graphDoc|] == graphDoc;
    return cmds, Written(d);
  }

  /** The chains handled once the inner loop is at chain j of relay node i. */
  function Done(graphDoc: seq<Resolve.RelayNode>, i: nat, j: nat): seq<Job>
    requires i < |graphDoc| && j <= |graphDoc[i].chainIpList|
  {
    Jobs(graphDoc[..i]) + JobsOf(graphDoc[i])[..j]
  }

  lemma DoneStart(graphDoc: seq<Resolve.RelayNode>, i: nat)
    requires i < |graphDoc|
    ensures Done(graphDoc, i, 0) == Jobs(graphDoc[..i])
  {
  }

  lemma DoneEnd(graphDoc: seq<Resolve.RelayNode>, i: nat)
    requires i < |graphDoc|
    ensures Done(graphDoc, i, |graphDoc[i].chainIpList|) == Jobs(graphDoc[..i + 1])
  {
    assert graphDoc[..i + 1][..i] == graphDoc[..i];
    assert JobsOf(graphDoc[i])[..|graphDoc[i].chainIpList|] == JobsOf(graphDoc[i]);
  }

  /** Handling chain j of relay node i is one `Step`. */
  lemma DoneStep(graphDoc: seq<Resolve.RelayNode>, i: nat, j: nat, first: nat, run: Tool)
    requires i < |graphDoc| && j < |graphDoc[i].chainIpList|
    ensures Run(Done(graphDoc, i, j + 1), first, run)
         == Step(Run(Done(graphDoc, i, j), first, run), Job(graphDoc[i].chainIpList[j], graphDoc[i].bitxhubId), run)
  {
    DoneSnoc(graphDoc, i, j);
    RunSnoc(Done(graphDoc, i, j + 1), first, run);
  }

  /** Once handling chain j of relay node i has stopped the loop, the rest of
      the document changes nothing. */
  lemma DoneStops(graphDoc: seq<Resolve.RelayNode>, i: nat, j: nat, first: nat, run: Tool)
    requires i < |graphDoc| && j <= |graphDoc[i].chainIpList|
    requires !Run(Done(graphDoc, i, j), first, run).status.Running?
    ensures Run(Jobs(graphDoc), first, run) == Run(Done(graphDoc, i, j), first, run)
  {
    DonePrefix(graphDoc, i, j);
    StoppedStaysStopped(Done(graphDoc, i, j), Jobs(graphDoc), first, run);
  }

  lemma DoneSnoc(graphDoc: seq<Resolve.RelayNode>, i: nat, j: nat)
    requires i < |graphDoc| && j < |graphDoc[i].chainIpList|
    ensures var done := Done(graphDoc, i, j + 1);
      && done != []
      && done[..|done| - 1] == Done(graphDoc, i, j)
      && done[|done| - 1] == Job(graphDoc[i].chainIpList[j], graphDoc[i].bitxhubId)
  {
    var done := Done(graphDoc, i, j + 1);
    assert done[..|done| - 1] == Done(graphDoc, i, j);
  }

  lemma DonePrefix(graphDoc: seq<Resolve.RelayNode>, i: nat, j: nat)
    requires i < |graphDoc| && j <= |graphDoc[i].chainIpList|
    ensures Done(graphDoc, i, j) <= Jobs(graphDoc)
  {
    JobsPrefix(graphDoc, i + 1);
    assert graphDoc[..i + 1][..i] == graphDoc[..i];
    assert JobsOf(graphDoc[i])[..j] <= JobsOf(graphDoc[i]);
  }

  lemma RunSnoc(jobs: seq<Job>, first: nat, run: Tool)
    requires jobs != []
    ensures Run(jobs, first, run) == Step(Run(jobs[..|jobs| - 1], first, run), jobs[|jobs| - 1], run)
  {
  }

  lemma StepOnEmptyBroker(st: State, job: Job, run: Tool)
    requires st.status.Running?
    requires run(BrokerCmd(job.ethIp, job.bitxhubId, NatToString(st.next))) == ""
    ensures var c := BrokerCmd(job.ethIp, job.bitxhubId, NatToString(st.next));
      Step(st, job, run) == st.(cmds := st.cmds + [c, c], status := Returned)
  {
  }

  lemma {:induction false} JobsPrefix(doc: seq<Resolve.RelayNode>, n: nat)
    requires n <= |doc|
    ensures Jobs(doc[..n]) <= Jobs(doc)
    decreases |doc| - n
  {
    if n < |doc| {
      var h := doc[..|doc| - 1];
      assert h[..n] == doc[..n];
      JobsPrefix(h, n);
    } else {
      assert doc[..n] == doc;
    }
  }

  /** Once the loop has returned or raised, further chains change nothing. */
  lemma {:induction false} StoppedStaysStopped(done: seq<Job>, jobs: seq<Job>, first: nat, run: Tool)
    requires done <= jobs
    requires !Run(done, first, run).status.Running?
    ensures Run(jobs, first, run) == Run(done, first, run)
    decreases |jobs|
  {
    if |jobs| > |done| {
      var h := jobs[..|jobs| - 1];
      assert done <= h;
      StoppedStaysStopped(done, h, first, run);
    } else {
      assert jobs == done;
    }
  }

  /** The log of command lines only grows. */
  lemma {:induction false} CommandsGrow(done: seq<Job>, jobs: seq<Job>, first: nat, run: Tool)
    requires done <= jobs
    ensures Run(done, first, run).cmds <= Run(jobs, first, run).cmds
    decreases |jobs|
  {
    if |jobs| > |done| {
      var h := jobs[..|jobs| - 1];
      assert done <= h;
      CommandsGrow(done, h, first, run);
      StepExtends(Run(h, first, run), jobs[|jobs| - 1], run);
    } else {
      assert jobs == done;
    }
  }

  /** One chain only appends commands. */
  lemma StepExtends(st: State, job: Job, run: Tool)
    ensures st.cmds <= Step(st, job, run).cmds
  {
  }

  /** Every recorded id is `ethappchain<k>` for a k below the counter, and
      distinct IPs carry distinct ids; while running, the counter is the
      number of chains handled and the recorded IPs are exactly theirs. */
  ghost predicate Numbered(st: State, first: nat, jobs: seq<Job>) {
    && (forall ip :: ip in st.doc ==> exists k :: first <= k < st.next && st.doc[ip].id == AppchainName(k))
    && (forall a, b :: a in st.doc && b in st.doc && a != b ==> st.doc[a].id != st.doc[b].id)
    && (st.status.Running? ==> st.next == first + |jobs|)
    && (st.status.Running? ==> st.doc.Keys == Ips(jobs))
    && (st.status.Running? && DistinctIps(jobs) ==>
          forall k :: 0 <= k < |jobs| ==>
            && jobs[k].ethIp in st.doc
            && st.doc[jobs[k].ethIp].id == AppchainName(first + k)
            && st.doc[jobs[k].ethIp].bitxhubId == jobs[k].bitxhubId)
  }

  /** No chain IP occurs twice. */
  ghost predicate DistinctIps(jobs: seq<Job>) {
    forall a, b :: 0 <= a < b < |jobs| ==> jobs[a].ethIp != jobs[b].ethIp
  }

  /** The chain IPs of a list of chains. */
  function Ips(jobs: seq<Job>): set<string> {
    set j | j in jobs :: j.ethIp
  }

  lemma IpsSnoc(jobs: seq<Job>, job: Job)
    ensures Ips(jobs + [job]) == Ips(jobs) + {job.ethIp}
  {
    assert forall j :: j in jobs + [job] <==> j in jobs || j == job;
  }

  lemma {:induction false} RunNumbered(jobs: seq<Job>, first: nat, run: Tool)
    ensures Numbered(Run(jobs, first, run), first, jobs)
  {
    if jobs != [] {
      var h := jobs[..|jobs| - 1];
      RunNumbered(h, first, run);
      RunSnoc(jobs, first, run);
      assert h + [jobs[|jobs| - 1]] == jobs;
      StepNumbered(Run(h, first, run), first, h, jobs[|jobs| - 1], run);
    }
  }

  /** One chain keeps `Numbered`: a new entry gets the counter's current
      value, which no earlier entry holds. */
  lemma StepNumbered(st: State, first: nat, jobs: seq<Job>, job: Job, run: Tool)
    requires Numbered(st, first, jobs)
    ensures Numbered(Step(st, job, run), first, jobs + [job])
  {
    if st.status.Running? {
      var (cs, out) := DeployChain(job.ethIp, job.bitxhubId, NatToString(st.next), run);
      if out.Deployed? {
        AddNumbered(st, first, jobs, job, Deployment(out.broker, out.transfer, AppchainName(st.next), job.bitxhubId),
                    st.cmds + cs);
      }
    }
  }

  lemma AddNumbered(st: State, first: nat, jobs: seq<Job>, job: Job, entry: Deployment, cmds: seq<string>)
    requires Numbered(st, first, jobs) && st.status.Running?
    requires entry.id == AppchainName(st.next) && entry.bitxhubId == job.bitxhubId
    ensures Numbered(State(st.doc[job.ethIp := entry], st.next + 1, cmds, Running), first, jobs + [job])
  {
    var st' := State(st.doc[job.ethIp := entry], st.next + 1, cmds, Running);
    var jobs' := jobs + [job];
    forall ip | ip in st'.doc
      ensures exists k :: first <= k < st'.next && st'.doc[ip].id == AppchainName(k)
    {
      if ip == job.ethIp {
        assert st'.doc[ip].id == AppchainName(st.next);
      } else {
        var k :| first <= k < st.next && st.doc[ip].id == AppchainName(k);
        assert st'.doc[ip].id == AppchainName(k);
      }
    }
    AddDistinct(st, first, job, entry, st');
    IpsSnoc(jobs, job);
    if DistinctIps(jobs') {
      assert DistinctIps(jobs) by {
        forall a, b | 0 <= a < b < |jobs| ensures jobs[a].ethIp != jobs[b].ethIp {
          assert jobs'[a] == jobs[a] && jobs'[b] == jobs[b];
        }
      }
      AddIndexed(st.doc, first, jobs, job, entry);
    }
  }

  /** Recording one more chain under a new IP keeps the earlier chains'
      entries and puts the new one at the next position. */
  lemma AddIndexed(doc: map<string, Deployment>, first: nat, jobs: seq<Job>, job: Job, entry: Deployment)
    requires DistinctIps(jobs + [job])
    requires forall k :: 0 <= k < |jobs| ==>
      && jobs[k].ethIp in doc
      && doc[jobs[k].ethIp].id == AppchainName(first + k)
      && doc[jobs[k].ethIp].bitxhubId == jobs[k].bitxhubId
    requires entry.id == AppchainName(first + |jobs|) && entry.bitxhubId == job.bitxhubId
    ensures var jobs', doc' := jobs + [job], doc[job.ethIp := entry];
      forall k :: 0 <= k < |jobs'| ==>
        && jobs'[k].ethIp in doc'
        && doc'[jobs'[k].ethIp].id == AppchainName(first + k)
        && doc'[jobs'[k].ethIp].bitxhubId == jobs'[k].bitxhubId
  {
    var jobs', doc' := jobs + [job], doc[job.ethIp := entry];
    forall k | 0 <= k < |jobs'|
      ensures jobs'[k].ethIp in doc'
      ensures doc'[jobs'[k].ethIp].id == AppchainName(first + k)
      ensures doc'[jobs'[k].ethIp].bitxhubId == jobs'[k].bitxhubId
    {
      if k < |jobs| {
        assert jobs'[k] == jobs[k] && jobs'[|jobs|] == job;
        assert doc'[jobs[k].ethIp] == doc[jobs[k].ethIp];
      }
    }
  }

  lemma AddDistinct(st: State, first: nat, job: Job, entry: Deployment, st': State)
    requires forall ip :: ip in st.doc ==> exists k :: first <= k < st.next && st.doc[ip].id == AppchainName(k)
    requires forall a, b :: a in st.doc && b in st.doc && a != b ==> st.doc[a].id != st.doc[b].id
    requires entry.id == AppchainName(st.next) && st'.doc == st.doc[job.ethIp := entry]
    ensures forall a, b :: a in st'.doc && b in st'.doc && a != b ==> st'.doc[a].id != st'.doc[b].id
  {
    forall a, b | a in st'.doc && b in st'.doc && a != b
      ensures st'.doc[a].id != st'.doc[b].id
    {
      if a == job.ethIp || b == job.ethIp {
        var o := if a == job.ethIp then b else a;
        var k :| first <= k < st.next && st.doc[o].id == AppchainName(k);
        if AppchainName(k) == AppchainName(st.next) {
          PrefixedNumeralInjective("ethappchain", k, st.next);
        }
      }
    }
  }

  /** The ids in a written document are pairwise distinct and each is
      `ethappchain<k>` for one of the counter values used; the document has
      an entry for every chain IP; and when no chain IP repeats, the k-th
      chain is recorded as `ethappchain<first + k>` under its own relay id. */
  lemma DeployIdsDistinct(jobs: seq<Job>, first: nat, run: Tool)
    ensures Finish(Run(jobs, first, run)).Written? ==>
      var doc := Finish(Run(jobs, first, run)).doc;
      && (forall a, b :: a in doc && b in doc && a != b ==> doc[a].id != doc[b].id)
      && (forall ip :: ip in doc ==> exists k :: first <= k < first + |jobs| && doc[ip].id == AppchainName(k))
      && doc.Keys == Ips(jobs)
      && (DistinctIps(jobs) ==> forall k :: 0 <= k < |jobs| ==>
            && jobs[k].ethIp in doc
            && doc[jobs[k].ethIp].id == AppchainName(first + k)
            && doc[jobs[k].ethIp].bitxhubId == jobs[k].bitxhubId)
  {
    RunNumbered(jobs, first, run);
  }

  /** A written document has an entry for exactly the chain IPs. */
  lemma WrittenKeys(jobs: seq<Job>, first: nat, run: Tool)
    ensures Finish(Run(jobs, first, run)).Written? ==> Finish(Run(jobs, first, run)).doc.Keys == Ips(jobs)
  {
    RunNumbered(jobs, first, run);
  }

  /** An empty broker output ends `deploy` on the spot: the command is run once
      more to show its output, nothing after it runs, and no document is
      written. */
  lemma EmptyBrokerAborts(done: seq<Job>, job: Job, rest: seq<Job>, first: nat, run: Tool)
    requires Run(done, first, run).status.Running?
    requires run(BrokerCmd(job.ethIp, job.bitxhubId, NatToString(Run(done, first, run).next))) == ""
    ensures
      var c := BrokerCmd(job.ethIp, job.bitxhubId, NatToString(Run(done, first, run).next));
      Run(done + [job] + rest, first, run) == Run(done, first, run).(cmds := Run(done, first, run).cmds + [c, c], status := Returned)
    ensures Finish(Run(done + [job] + rest, first, run)) == EarlyReturn
  {
    RunSnoc(done + [job], first, run);
    assert (done + [job])[..|done|] == done;
    StepOnEmptyBroker(Run(done, first, run), job, run);
    StoppedStaysStopped(done + [job], done + [job] + rest, first, run);
  }

  /** With a tool whose every deploy output has an address, every chain is
      deployed: the document holds one entry per chain IP. */
  lemma {:induction false} AllDeployedWhenToolAnswers(jobs: seq<Job>, first: nat, run: Tool)
    requires forall c :: DeployPrefix <= c ==> LastWord(run(c)).Some? && run(c) != ""
    ensures Run(jobs, first, run).status.Running?
    ensures |Run(jobs, first, run).cmds| == 3 * |jobs|
  {
    if jobs != [] {
      var h := jobs[..|jobs| - 1];
      var job := jobs[|jobs| - 1];
      AllDeployedWhenToolAnswers(h, first, run);
      var st := Run(h, first, run);
      var c1 := BrokerCmd(job.ethIp, job.bitxhubId, NatToString(st.next));
      assert LastWord(run(c1)).Some?;
      assert LastWord(run(TransferCmd(job.ethIp, LastWord(run(c1)).value))).Some?;
    }
  }

  /** The name a deployment was recorded under splits into `ethappchain` and
      the chain number the broker was constructed with. */
  lemma AppchainNameParts(n: nat)
    ensures |AppchainName(n)| >= 11
    ensures AppchainName(n)[..11] == "ethappchain" && AppchainName(n)[11..] == NatToString(n)
  {
  }

  /** An entry read off the tool: its id is `ethappchain<no>`, its broker is
      the last word the broker deployment for chain `no` at this IP printed,
      and its transfer the last word the transfer deployment with that broker
      printed. */
  ghost predicate FromTool(run: Tool, ip: string, d: Deployment) {
    && |d.id| >= 11 && d.id[..11] == "ethappchain"
    && LastWord(run(BrokerCmd(ip, d.bitxhubId, d.id[11..]))) == Some(d.broker)
    && LastWord(run(TransferCmd(ip, d.broker))) == Some(d.transfer)
  }

  /** Every entry of `doc` was read off the tool. */
  ghost predicate AllFromTool(doc: map<string, Deployment>, run: Tool) {
    forall ip :: ip in doc ==> FromTool(run, ip, doc[ip])
  }

  /** Every entry of `doc` was read off the tool's output for its own IP and
      belongs to one of `jobs`, under that chain's relay id. */
  ghost predicate Sourced(doc: map<string, Deployment>, jobs: seq<Job>, run: Tool) {
    forall ip :: ip in doc ==>
      && FromTool(run, ip, doc[ip])
      && exists k :: 0 <= k < |jobs| && jobs[k] == Job(ip, doc[ip].bitxhubId)
  }

  /** Every entry of the document, at any point of the loop, was read off the
      tool's output for its own IP and belongs to one of the chains handled,
      under that chain's relay id. */
  lemma {:induction false} RunFromTool(jobs: seq<Job>, first: nat, run: Tool)
    ensures Sourced(Run(jobs, first, run).doc, jobs, run)
  {
    if jobs != [] {
      var h := jobs[..|jobs| - 1];
      RunFromTool(h, first, run);
      RunSnoc(jobs, first, run);
      assert h + [jobs[|jobs| - 1]] == jobs;
      StepSourced(Run(h, first, run), h, jobs[|jobs| - 1], run);
    }
  }

  /** One chain keeps every entry sourced. */
  lemma StepSourced(st: State, jobs: seq<Job>, job: Job, run: Tool)
    requires Sourced(st.doc, jobs, run)
    ensures Sourced(Step(st, job, run).doc, jobs + [job], run)
  {
    if st.status.Running? && Step(st, job, run).status.Running? {
      AppchainNameParts(st.next);
      var d := Step(st, job, run).doc[job.ethIp];
      SourcedAdd(st.doc, jobs, job, d, run);
    } else {
      SourcedGrow(st.doc, jobs, job, run);
    }
  }

  /** Recording one more chain's entry, read off the tool, keeps the
      document sourced. */
  lemma SourcedAdd(doc: map<string, Deployment>, jobs: seq<Job>, job: Job, d: Deployment, run: Tool)
    requires Sourced(doc, jobs, run)
    requires FromTool(run, job.ethIp, d) && d.bitxhubId == job.bitxhubId
    ensures Sourced(doc[job.ethIp := d], jobs + [job], run)
  {
    var jobs', doc' := jobs + [job], doc[job.ethIp := d];
    forall ip | ip in doc'
      ensures FromTool(run, ip, doc'[ip])
      ensures exists k :: 0 <= k < |jobs'| && jobs'[k] == Job(ip, doc'[ip].bitxhubId)
    {
      if ip == job.ethIp {
        assert jobs'[|jobs|] == Job(ip, doc'[ip].bitxhubId);
      } else {
        var k :| 0 <= k < |jobs| && jobs[k] == Job(ip, doc[ip].bitxhubId);
        assert jobs'[k] == jobs[k];
      }
    }
  }

  /** A sourced document stays sourced when a chain is handled without
      recording it. */
  lemma SourcedGrow(doc: map<string, Deployment>, jobs: seq<Job>, job: Job, run: Tool)
    requires Sourced(doc, jobs, run)
    ensures Sourced(doc, jobs + [job], run)
  {
    var jobs' := jobs + [job];
    forall ip | ip in doc
      ensures exists k :: 0 <= k < |jobs'| && jobs'[k] == Job(ip, doc[ip].bitxhubId)
    {
      var k :| 0 <= k < |jobs| && jobs[k] == Job(ip, doc[ip].bitxhubId);
      assert jobs'[k] == jobs[k];
    }
  }

  /** An entry read off the tool under the name `ethappchain<n>` holds what
      the deployments for chain number n printed. */
  lemma FromToolNumbered(run: Tool, ip: string, d: Deployment, n: nat)
    requires FromTool(run, ip, d) && d.id == AppchainName(n)
    ensures LastWord(run(BrokerCmd(ip, d.bitxhubId, NatToString(n)))) == Some(d.broker)
  {
    AppchainNameParts(n);
  }

  /** What a sourced document with the k-th chain named `ethappchain<first + k>`
      says about each chain. */
  ghost predicate ReadInOrder(doc: map<string, Deployment>, jobs: seq<Job>, first: nat, run: Tool) {
    forall k :: 0 <= k < |jobs| ==>
      && jobs[k].ethIp in doc
      && LastWord(run(BrokerCmd(jobs[k].ethIp, jobs[k].bitxhubId, NatToString(first + k))))
         == Some(doc[jobs[k].ethIp].broker)
      && LastWord(run(TransferCmd(jobs[k].ethIp, doc[jobs[k].ethIp].broker)))
         == Some(doc[jobs[k].ethIp].transfer)
  }

  lemma SourcedInOrder(doc: map<string, Deployment>, jobs: seq<Job>, first: nat, run: Tool)
    requires Sourced(doc, jobs, run)
    requires forall k :: 0 <= k < |jobs| ==>
      && jobs[k].ethIp in doc
      && doc[jobs[k].ethIp].id == AppchainName(first + k)
      && doc[jobs[k].ethIp].bitxhubId == jobs[k].bitxhubId
    ensures ReadInOrder(doc, jobs, first, run)
  {
    forall k | 0 <= k < |jobs|
      ensures LastWord(run(BrokerCmd(jobs[k].ethIp, jobs[k].bitxhubId, NatToString(first + k))))
           == Some(doc[jobs[k].ethIp].broker)
    {
      AppchainNameParts(first + k);
    }
  }

  /** What a document read off the tool says: every entry came from the
      tool's output for its IP, and with no chain IP repeated, chain k's
      entry holds what the deployments for chain number `first + k` printed. */
  ghost predicate RecordsRead(doc: map<string, Deployment>, jobs: seq<Job>, first: nat, run: Tool) {
    && AllFromTool(doc, run)
    && (DistinctIps(jobs) ==> ReadInOrder(doc, jobs, first, run))
  }

  /** What `deploy_<ns>.json` records: every entry's broker and transfer are
      the last words of the two deployments for its IP; and when no chain IP
      repeats, the k-th chain's entry holds the last words printed by the
      broker deployment for chain number `first + k` at its relay's id and by
      the transfer deployment with that broker. */
  lemma DeployRecordsToolOutput(jobs: seq<Job>, first: nat, run: Tool)
    ensures Finish(Run(jobs, first, run)).Written? ==>
      RecordsRead(Finish(Run(jobs, first, run)).doc, jobs, first, run)
  {
    var st := Run(jobs, first, run);
    if st.status.Running? {
      RunFromTool(jobs, first, run);
      RunNumbered(jobs, first, run);
      StateRecordsRead(st, jobs, first, run);
      assert Finish(st).doc == st.doc;
    }
  }

  lemma StateRecordsRead(st: State, jobs: seq<Job>, first: nat, run: Tool)
    requires Numbered(st, first, jobs) && Sourced(st.doc, jobs, run) && st.status.Running?
    ensures RecordsRead(st.doc, jobs, first, run)
  {
    if DistinctIps(jobs) {
      SourcedInOrder(st.doc, jobs, first, run);
    }
  }

  /** The whole loop is insensitive to what the audits print. */
  lemma {:induction false} DeployIgnoresAuditOutput(jobs: seq<Job>, first: nat, run1: Tool, run2: Tool)
    requires AgreeExceptAudit(run1, run2)
    ensures Run(jobs, first, run1) == Run(jobs, first, run2)
  {
    if jobs != [] {
      var h := jobs[..|jobs| - 1];
      var job := jobs[|jobs| - 1];
      DeployIgnoresAuditOutput(h, first, run1, run2);
      AuditOutputIgnored(job.ethIp, job.bitxhubId, NatToString(Run(h, first, run1).next), run1, run2);
    }
  }
}
