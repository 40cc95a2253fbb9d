# Private BitXHub + Geth networks on Kubernetes, modelled in Dafny

The repository's scripts stand up private cross-chain test networks on a
Kubernetes cluster:

- BitXHub relay chains;
- Geth appchains;
- one pier per appchain, which joins the appchain to its relay.

`k8s/main.py` drives five phases:

1. `create_by_config` asks for a namespace, a service, one Geth deployment
   and one BitXHub pod per relay. It then polls `kubectl` until every pod has
   an IP and partitions the Geth pods among the relays. The result is written
   to `graph_<ns>.json`.
2. `deploy` runs `goduck` for every appchain. It deploys the broker and
   transfer contracts and audits the node. The result is written to
   `deploy_<ns>.json`.
3. `create_deployment_pier` builds a working directory for every pier and
   rewrites its `pier.toml` and `ethereum.toml`. It copies the directory to
   the worker nodes, asks for the pier pod and writes `pier_<ns>.json`.
4. `register` runs the same commands for every pier pod:
   - fund the pier's account;
   - register the appchain and its service;
   - have the relay's three validators approve both proposals.
5. `GethLightClient` handles the API errors of its create and delete calls.

`k8s-ethereum/main.py` is an older version of `deploy` and
`create_deployment_pier`. `k8s/eth.py` holds three helpers:

- the EIP-55 checksum encoding of addresses;
- account generation;
- the Geth genesis document.

## How the model works

- **Pure code becomes functions.** Each piece of pure code is a total
  function over values.
- **Loops become methods.** Each loop that changes state step by step is a
  method with a `while`/`for` loop. The method is proved against a
  specification function: a left fold of one `Step` over the loop's input.
  - Its results are that fold's commands, files, pods and documents.
  - The fold has absorbing stop states: `Returned` for an early `return`,
    `Raised(e)` for an exception. Once stopped, it ignores the remaining
    steps.
- **Python exceptions are Results.** `IndexError` from `pop`, `[-1]` or
  `[-4]`, `KeyError` from a dictionary lookup, and `NameError` for an unbound
  loop variable are results of the model. They are not preconditions.
- **The outside world is data or a parameter.**
  - Every shell command a script runs is modelled as its command line. The
    lines are collected in order.
  - What a command prints is given by a parameter `run: string -> string`,
    from the exact command line to its stdout.
  - Kubernetes requests and pod definitions are records of the fields the
    scripts set.
  - TOML documents are maps from key paths to values.
  - Keccak-256 and key generation are parameters.

Several behaviours of the code are proved as lemmas:

- **Working directories collide.** `mount_pier{i}{j}` is the same directory
  for relay 1, chain 11 and for relay 11, chain 1. The two chains also share
  the appchain name `eth111`.
- **The checksum is not always idempotent.** Encoding an already encoded
  address twice can change it (input `00xx`).
- **The older script keeps only the last chain.** Its shared working
  directory ends up configured for the relay's last chain alone.
- **The older script can leak `j`.** A relay with no chains reuses, or fails
  to bind, the leaked loop variable `j`.
- **`register` funds before it looks up.** It funds an account before it
  looks up the chain's deployment.

## Model

| member | source | states |
|---|---|---|
| `Outcome.At` | k8s/main.py:347 | Python indexing `s[i]`, with negative indices counted from the end: Ok exactly when `-|s| <= i < |s|`, otherwise IndexError |
| `Text.Words` | k8s/main.py:268 | `str.split()`: every word is non-empty and contains no whitespace; `WordsLayout` and `WordsOfSpread` pin the result down completely |
| `Text.LastWord` | k8s/main.py:347 | `split()[-1]`: Some exactly when the text has a word, and then it is the last word |
| `Text.WordsOfJoin` | k8s/main.py:268 | splitting fields joined by single spaces gives the fields back, when none is empty or contains whitespace |
| `Text.LastWordOfLine` | k8s/main.py:347 | the last word of words joined by spaces and followed by whitespace is the last of those words |
| `Text.WordsIgnoreTrailingSpace` | k8s/main.py:347 | trailing whitespace, such as `read()`'s final newline, does not change the words |
| `Text.AllSpaceHasNoWords` | k8s/main.py:347 | text made only of whitespace has no words, so `[-1]` raises on it |
| `Text.WordsSkipLeadingSpace` | k8s/main.py:268 | leading whitespace does not change the words |
| `Text.WordsOfSpreadCore` | k8s/main.py:268 | words laid out with non-empty whitespace gaps split back into those words |
| `Text.WordsOfSpread` | k8s/main.py:268 | words laid out with any non-empty whitespace gaps, and any whitespace before and after, split back into those words: column padding does not matter |
| `Text.SpreadHead` | k8s/main.py:268 | a layout starts with the first character of its first word (proof step) |
| `Text.WordsLayout` | k8s/main.py:268 | every string is its words laid out with non-empty whitespace gaps and optional whitespace around them: the words are exactly its maximal whitespace-free runs, in order |
| `Text.LayoutAfterWord` | k8s/main.py:268 | the whitespace before the next word becomes the gap after this one (proof step) |
| `Text.Lines` | k8s/main.py:268 | `str.split('\n')`: at least one piece, and no piece contains a newline |
| `Text.JoinOfLines` | k8s/main.py:268 | joining the pieces with newlines gives the text back |
| `Text.LinesOfJoin` | k8s/main.py:268 | splitting lines that contain no newline after joining them gives the lines back |
| `Text.NonEmpty` | k8s/main.py:268 | the `if item != ''` filter: every kept line is a non-empty input line, and every non-empty input line is kept |
| `Text.NonEmptyIsFilter` | k8s/main.py:268 | the filter keeps order and multiplicity: it distributes over concatenation and keeps a single line exactly when it is non-empty |
| `Text.NatToString` | k8s/main.py:250 | `str(n)`: a non-empty string of decimal digits |
| `Text.DigitsValueOfNatToString` | k8s/main.py:250 | the numeral reads back as n |
| `Text.NatToStringInjective` | k8s/main.py:358 | different counters give different numerals |
| `Text.PrefixedNumeralInjective` | k8s/main.py:358 | `"ethappchain" + str(k)` names are pairwise distinct |
| `Text.DigitsBeforeSeparator` | k8s/main.py:457 | `str(i) + "-" + rest` determines i and rest |
| `Text.Lower` | k8s/eth.py:9 | ASCII `lower()`: keeps the length and lower-cases each character in place |
| `PodListing.Column` | k8s/main.py:269 | `item.split()[c]` on every non-empty line: Ok exactly when every row has field c (negative c counted from the end; for c >= 0, exactly when every row has more than c fields), otherwise IndexError |
| `PodListing.Parse` | k8s/main.py:280-281 | the names (`[0]`) and IPs (`[-4]`) of a `kubectl get pods -o wide` listing: Ok exactly when every non-empty line has at least four fields |
| `PodListing.PollOnce` | k8s/main.py:264-287 | one poll: Resolved exactly when the listing parses and no IP is `<none>`; Waiting when it parses with a `<none>`; Failed with the parse error otherwise |
| `PodListing.ParseRender` | k8s/main.py:268-269 | parsing a rendered listing, whatever whitespace pads its columns, gives back every row's name and IP column, in order |
| `PodListing.PollRender` | k8s/main.py:270-273 | a rendered listing, however padded, is Resolved exactly when no row's IP is `<none>` |
| `PodListing.RowLineWords` | k8s/main.py:268 | a padded pod line splits into its fields and holds no newline |
| `PodListing.NoNewlineInSpread` | k8s/main.py:268 | words laid out with newline-free gaps contain no newline |
| `PodListing.NodeRows` | k8s/main.py:389 | the node lines kept by `grep Ready`: every kept line is a non-empty input line containing `Ready`, and every such line is kept |
| `PodListing.NodeRowsIsFilter` | k8s/main.py:389 | the node filter keeps order: it distributes over concatenation and keeps a single line exactly when it is non-empty and contains `Ready` |
| `PodListing.NodeIps` | k8s/main.py:390 | the INTERNAL-IP column (`split()[5]`) of every kept node line: Ok exactly when every one has six fields |
| `PodListing.NotReadyNodesKept` | k8s/main.py:389 | a `NotReady` node line also matches `grep Ready`, so its node is kept |
| `Provision.ProvisionPlan` | k8s/main.py:228-262 | the requests in order: namespace, service, one Geth deployment with `sum(graph)` replicas, then relay pod i named `bitxhub-i` with id `123i`; plus the seed of each relay |
| `Provision.RelayPodFor` | k8s/main.py:250-252 | relay pod i and its container are named `bitxhub-i`, and its only argument is the relay id `123i` |
| `Provision.RelayNamesDistinct` | k8s/main.py:250-252 | relay pod names and relay ids are pairwise distinct |
| `Provision.SumPrefix` | k8s/main.py:240-242 | the chain count of a prefix of the graph is at most the total |
| `Provision.SumSnoc` | k8s/main.py:240-242 | the chain count grows by the last relay's count |
| `Resolve.Offset` | k8s/main.py:294-297 | where relay i's chains start in the pool: never beyond the total |
| `Resolve.OffsetStep` | k8s/main.py:294-297 | relay i+1's chains start right after relay i's |
| `Resolve.NodeAt` | k8s/main.py:290-301 | relay i's entry: its seed's name and id, relay IP i, and exactly `graph[i]` chain names and IPs taken in order from the pools starting at `Offset(i)`, with pier prefix `pier-i` |
| `Resolve.Partition` | k8s/main.py:290-301 | the partition loop: Ok exactly when there are enough relay IPs, Geth names and Geth IPs, otherwise IndexError; when Ok, entry i is `NodeAt(i)` |
| `Resolve.PopChains` | k8s/main.py:295-297 | `fetch` `pop(0)`s from each pool: succeeds exactly when both pools are long enough, and then returns the front of each pool and what remains |
| `Resolve.PartitionCoversPool` | k8s/main.py:290-301 | the first n relays' chains together are the pool's first `Offset(n)` IPs and names, in order |
| `Resolve.CreateByConfig` | k8s/main.py:228-303 | the whole call with one poll of each listing: the graph document is written exactly when both polls are Resolved and the listings are long enough, and then it is the partition |
| `ContractTool.BrokerCmd` | k8s/main.py:340 | the broker deployment is a `goduck ether contract deploy` command line |
| `ContractTool.TransferCmd` | k8s/main.py:350 | the transfer deployment is a `goduck ether contract deploy` command line |
| `ContractTool.AuditCmd` | k8s/main.py:354 | the audit is a `goduck` audit command, never a deploy command |
| `ContractTool.DeployChain` | k8s/main.py:340-356 | one chain runs one to three commands, the broker deployment first; it is deployed exactly when all three run |
| `ContractTool.DeployOnChain` | k8s/main.py:340-356 | the commands run for one chain and its outcome: empty broker output stops after the broker command runs twice; a missing address raises IndexError; otherwise it deploys the transfer and audits |
| `ContractTool.DeployChainSteps` | k8s/main.py:340-356 | an empty broker output stops after the repeated broker command; the chain crashes exactly when the broker output is non-empty but has no word, or the transfer output has no word; a deployed chain runs exactly broker, transfer and audit, and records the last word of each deploy output |
| `ContractTool.DeployCommandsAreNotAudits` | k8s/main.py:354-355 | no deploy command line is an audit command line |
| `ContractTool.AuditOutputIgnored` | k8s/main.py:354-355 | what the audit prints does not change the chain's outcome |
| `Deploy.JobsOf` | k8s/main.py:334-337 | one job per chain IP of a relay, in order, carrying the relay's id |
| `Deploy.Step` | k8s/main.py:337-359 | one chain: a stopped loop stays as it is; commands only grow; a stop leaves document and counter alone; a chain that goes through advances the counter by one, changes the entry of its own IP and no other, and records there id `ethappchain<counter>`, its relay's id, as broker the last word the broker deployment for that counter printed, and as transfer the last word the transfer deployment with that broker printed |
| `Deploy.Run` | k8s/main.py:333-359 | the fold: the counter stays between `first` and `first + |jobs|`, equals `first + |jobs|` while running, and every recorded IP is the IP of a job |
| `Deploy.Deploy` | k8s/main.py:323-361 | the loop over every relay and chain of the graph document: commands and outcome equal the fold `Run` over `Jobs(graphDoc)` |
| `Deploy.DoneStart` | k8s/main.py:333-338 | before relay i's chains, the jobs done are all jobs of relays before i |
| `Deploy.DoneEnd` | k8s/main.py:333-338 | after relay i's last chain, the jobs done are those of relays up to i |
| `Deploy.DoneStep` | k8s/main.py:333-338 | handling chain j of relay i extends the fold by one step |
| `Deploy.DoneStops` | k8s/main.py:342-346 | a stopped loop's state is the whole call's state |
| `Deploy.DoneSnoc` | k8s/main.py:333-338 | the jobs done grow by one chain at a time (proof step) |
| `Deploy.DonePrefix` | k8s/main.py:333-338 | the jobs done are a prefix of all jobs |
| `Deploy.RunSnoc` | k8s/main.py:333-361 | the fold over one more chain is one more step (proof step) |
| `Deploy.StepOnEmptyBroker` | k8s/main.py:342-346 | an empty broker output runs the command again to show it and returns |
| `Deploy.JobsPrefix` | k8s/main.py:333-338 | the jobs of a prefix of the graph document are a prefix of its jobs |
| `Deploy.StoppedStaysStopped` | k8s/main.py:342-346 | after a return or an exception, no later chain changes anything |
| `Deploy.CommandsGrow` | k8s/main.py:333-361 | commands are only ever appended |
| `Deploy.StepExtends` | k8s/main.py:333-361 | one chain only appends commands (proof step) |
| `Deploy.IpsSnoc` | k8s/main.py:358 | the IPs of one more chain add that chain's IP (proof step) |
| `Deploy.RunNumbered` | k8s/main.py:358-359 | while running, the counter has advanced once per chain, every entry's id is `ethappchain<k>` for a counter value used, and ids are distinct |
| `Deploy.StepNumbered` | k8s/main.py:358-359 | one chain keeps that numbering |
| `Deploy.AddNumbered` | k8s/main.py:358-359 | recording a chain under the next counter value keeps the numbering |
| `Deploy.AddIndexed` | k8s/main.py:358 | for distinct chain IPs, chain k is recorded as `ethappchain<first + k>` |
| `Deploy.AddDistinct` | k8s/main.py:358-359 | a fresh counter value gives an id distinct from every recorded one |
| `Deploy.RunFromTool` | k8s/main.py:337-359 | at every point of the loop each entry was read off the tool's output for its own IP (`FromTool`: broker and transfer are the last words of the two deployments, the id names the chain number the broker was built with) and belongs to a handled chain under that chain's relay id |
| `Deploy.StepSourced` | k8s/main.py:341-359 | (proof step) one chain keeps every entry read off the tool |
| `Deploy.DeployRecordsToolOutput` | k8s/main.py:340-361 | every entry of a written `deploy_<ns>.json` was read off the tool; with no chain IP repeated, chain k's entry holds the last word printed by the broker deployment for chain number `first + k` at its relay's id, and the last word printed by the transfer deployment with that broker |
| `Deploy.DeployIdsDistinct` | k8s/main.py:358-361 | a written document has pairwise distinct ids, one entry per chain IP, and (for distinct IPs) chain k recorded as `ethappchain<k>` under its relay's id |
| `Deploy.EmptyBrokerAborts` | k8s/main.py:342-346 | an empty broker output ends the call: the broker command runs twice, nothing later runs, no document is written |
| `Deploy.AllDeployedWhenToolAnswers` | k8s/main.py:333-361 | if every deploy prints an address, every chain is deployed with three commands each |
| `Deploy.DeployIgnoresAuditOutput` | k8s/main.py:354-355 | the whole loop does not depend on what the audits print |
| `Bundle.RelayAddrs` | k8s/main.py:434 | the four relay endpoints |
| `Bundle.RelayAddrsArePorts` | k8s/main.py:434 | the endpoints are ports 60011 to 60014 of the relay IP |
| `Bundle.RewritePierToml` | k8s/main.py:435-443 | the new `pier.toml` sets relay and union endpoints, a `10s` timeout, the appchain id, the `eth-client` plugin and the `ether` config, and keeps every other key |
| `Bundle.RewriteLegacyPierToml` | k8s-ethereum/main.py:298-304 | the older `pier.toml` sets only the endpoints and the appchain id, and keeps every other key |
| `Bundle.RewriteEtherToml` | k8s/main.py:445-448 | `ethereum.toml` gets the chain's websocket endpoint on port 8546 and its broker, and keeps every other key |
| `Bundle.LegacyRewritesOverwrite` | k8s-ethereum/main.py:298-304 | rewriting twice equals the second rewrite alone |
| `Bundle.EtherRewritesOverwrite` | k8s-ethereum/main.py:306-309 | rewriting twice equals the second rewrite alone |
| `Bundle.TomlPathsDistinct` | k8s/main.py:435-446 | the two TOML files of a directory have different paths |
| `Bundle.PathJoinShape` | k8s/main.py:426 | POSIX `os.path.join`: an absolute second part wins; otherwise the result starts with the first part and ends with the second |
| `Pier.SlotsOf` | k8s/main.py:421-424 | one slot per chain of relay i, carrying i, j, the relay's name and IP, and the chain IP |
| `Pier.MountDirShape` | k8s/main.py:426 | the working directory lies under the base path and its name ends `mount_pier` followed by the two numerals run together |
| `Pier.ScpCmdShape` | k8s/main.py:453 | an `sshpass` command that ends by copying to `<user>@<node>:<base>` |
| `Pier.PodFor` | k8s/main.py:457-465 | pod, volume mount and volume are all named `pier-i-j`, the host path is the working directory mounted at `/root/.pier`, and the container is named as relay 0's pod for the same j |
| `Pier.EntryFor` | k8s/main.py:479-485 | the entry carries the relay's name, the chain's id and IP, type `ETH`, and an appchain name made of `eth` and the two numerals run together |
| `Pier.Configure` | k8s/main.py:426-485 | a deployed chain: running, commands only grow, one more pod for the chain's directory, and the chain's entry recorded under `pier-i-j` |
| `Pier.Step` | k8s/main.py:421-485 | one chain: a stopped loop stays as it is; commands and pods only grow, by at most one pod; the loop goes on exactly when the chain is in `deploy_<ns>.json`, raising KeyError otherwise; the document gains the chain's name |
| `Pier.Run` | k8s/main.py:420-485 | the fold: at most one pod per slot, exactly one while running, and KeyError is the only exception |
| `Pier.PrepCmds` | k8s/main.py:427-432 | three preparation commands, the first emptying the working directory |
| `Pier.ScpHosts` | k8s/main.py:450-452 | the copy targets: every target is a listed node other than the control node, every such node is a target, and there are no more targets than nodes |
| `Pier.ScpHostsIsFilter` | k8s/main.py:450-452 | the targets keep the listing's order: the selection distributes over concatenation and keeps a single node exactly when it is not the control node |
| `Pier.ScpCmds` | k8s/main.py:450-455 | one scp command per copy target, in order |
| `Pier.CreateDeploymentPier` | k8s/main.py:364-487 | the whole call: a short node line raises IndexError first; otherwise commands, files, pods and outcome equal the fold `Run` over the slots of the graph document |
| `Pier.CopyToNodes` | k8s/main.py:450-455 | the copy loop appends exactly `ScpCmds` |
| `Pier.DoneStart` | k8s/main.py:421-424 | before relay i's chains, the slots done are those of relays before i |
| `Pier.DoneEnd` | k8s/main.py:421-424 | after relay i's last chain, the slots done are those of relays up to i |
| `Pier.DoneStep` | k8s/main.py:421-424 | chain j of relay i extends the fold by one step |
| `Pier.DoneStops` | k8s/main.py:433 | a stopped loop's state is the whole call's state |
| `Pier.SlotsPrefix` | k8s/main.py:421-424 | the slots of a prefix of the graph document are a prefix of its slots |
| `Pier.StoppedStaysStopped` | k8s/main.py:433 | after a KeyError, no later chain changes anything |
| `Pier.MissingChainAborts` | k8s/main.py:433-439 | a chain missing from `deploy_<ns>.json` raises KeyError after its three preparation commands, and no pier document is written |
| `Pier.StepOnDeployedChain` | k8s/main.py:426-485 | a deployed chain appends its preparation and copy commands, one pod named `pier-i-j` mounting its directory, and its entry |
| `Pier.StepWritesChainFiles` | k8s/main.py:434-448 | the chain's `pier.toml` points at its relay and names its appchain id; its `ethereum.toml` points at its Geth node and broker |
| `Pier.ConfiguredFiles` | k8s/main.py:443-448 | the two writes of one chain leave both files configured |
| `Pier.CopyTargets` | k8s/main.py:450-455 | a node gets a copy exactly when it is listed and is not the control node |
| `Pier.WrittenIffAllDeployed` | k8s/main.py:421-487 | the loop runs to the end exactly when every chain is in `deploy_<ns>.json` |
| `Pier.StepKeepsRunning` | k8s/main.py:433-439 | one chain keeps the loop going exactly when the chain is deployed |
| `Pier.PierNamesDistinct` | k8s/main.py:479 | `pier-i-j` names determine i and j |
| `Pier.MountDirsCollide` | k8s/main.py:426 | `mount_pier{i}{j}` does not: relay 1 chain 11 and relay 11 chain 1 share a directory |
| `Pier.AppchainNamesCollide` | k8s/main.py:482 | the same two chains are also both registered as appchain `eth111`, under distinct pier names |
| `Pier.SlotsDistinct` | k8s/main.py:421-424 | no (relay, chain) pair repeats |
| `Pier.RunRecorded` | k8s/main.py:457-485 | while running, there is one pod per slot in order, and one entry per slot built from its deployment |
| `Pier.StepRecorded` | k8s/main.py:457-485 | one slot keeps that record |
| `Pier.StepKeeps` | k8s/main.py:433-485 | a deployed slot adds exactly one pod and one entry |
| `Pier.AddRecorded` | k8s/main.py:457-485 | adding a slot's pod and entry keeps the record |
| `Pier.PierNamesSnoc` | k8s/main.py:479 | the names grow by the slot's name (proof step) |
| `Pier.AddPods` | k8s/main.py:457-476 | adding a slot's pod keeps the pods in slot order |
| `Pier.AddEntries` | k8s/main.py:479-485 | adding a slot's entry keeps every other entry |
| `Pier.PierDocument` | k8s/main.py:457-487 | a written pier document has one entry per chain, built from that chain's deployment, and the pods have distinct names, in order |
| `Pier.SlotsFollowJobs` | k8s/main.py:421-424 | the k-th slot of the pier loop is the k-th chain of `deploy` |
| `Deploy.WrittenKeys` | k8s/main.py:333-361 | a written `deploy_<ns>.json` has an entry for exactly the chain IPs |
| `Pier.SlotsDeployed` | k8s/main.py:421-439 | a deployment document keyed by the graph's chain IPs covers every slot of the pier loop |
| `Pier.PierAfterDeploy` | k8s/main.py:323-487 | a deployment document written by `deploy` for the same graph lets the pier loop run to the end |
| `Legacy.LegacyJobs` | k8s-ethereum/main.py:235-237 | one job per listed Geth IP, all under relay id `1356` |
| `Legacy.AddrDoc` | k8s-ethereum/main.py:255-256 | `addr.json`: same keys, each entry holding broker, transfer and id |
| `Legacy.AddrDocUpdate` | k8s-ethereum/main.py:255 | recording one chain updates one entry |
| `Legacy.LegacyDeploy` | k8s-ethereum/main.py:231-256 | a short listing line raises IndexError before anything runs; otherwise the same fold as `deploy` with the counter starting at 1 |
| `Legacy.DeployListed` | k8s-ethereum/main.py:235-256 | the loop over the listed IPs equals that fold |
| `Legacy.DeployRound` | k8s-ethereum/main.py:234-253 | one round of that loop is one `Deploy.Step` with the fixed relay id; it stops the loop exactly when the step does, with the matching report, and otherwise records the chain in both documents |
| `Legacy.JobsStep` | k8s-ethereum/main.py:235-255 | one more listed IP is one more step (proof step) |
| `Legacy.JobsStop` | k8s-ethereum/main.py:240-243 | a stopped loop's state is the whole call's state |
| `Legacy.LegacyIps` | k8s-ethereum/main.py:232-234 | the chains of the older loop are exactly the listed IPs |
| `Legacy.LegacyRecordsToolOutput` | k8s-ethereum/main.py:237-256 | every entry of a written `addr.json` holds the last words printed by the broker deployment at relay 1356 and the transfer deployment for its IP; with no IP listed twice, the i-th listed pod's entry holds what the deployments for chain number i + 1 printed |
| `Legacy.AddrsFromTool` | k8s-ethereum/main.py:244-255 | entries read off the tool at relay 1356 keep their broker, transfer and id in `addr.json` |
| `Legacy.LegacyIdsOneBased` | k8s-ethereum/main.py:235-256 | a written `addr.json` has distinct ids, one entry per listed IP, and (for distinct IPs) chain k is `ethappchain<k+1>` |
| `Legacy.ChainStep` | k8s-ethereum/main.py:296-331 | one chain keeps the pools and `j`, the working directory keeps both TOML files, commands and pods only grow, and a chain that goes on adds one pod |
| `Legacy.ChainsRun` | k8s-ethereum/main.py:296-331 | the chain loop keeps the pools and `j`, the directory keeps both TOML files, commands and pods only grow, and a loop that goes on adds one pod per chain |
| `Legacy.Popped` | k8s-ethereum/main.py:286-287 | `pop()` taken n times: the last n IPs, from the back |
| `Legacy.LeakedJ` | k8s-ethereum/main.py:286-290 | `j` after a relay's chains: unbound exactly when the relay has no chains and none was bound before; `n-1` after n chains; unchanged after none |
| `Legacy.RelayStep` | k8s-ethereum/main.py:281-331 | one relay: a stopped loop stays as it is; commands and pods only grow; a relay that goes on popped one relay IP and n Geth IPs from the back and added n pods |
| `Legacy.LRun` | k8s-ethereum/main.py:281-331 | the fold: commands and pods only grow, and while running one relay IP has been popped per relay |
| `Legacy.WorkDir` | k8s-ethereum/main.py:290 | the shared directory is the base path followed directly by the two numerals, unseparated |
| `Legacy.LegacyScp` | k8s-ethereum/main.py:311-316 | an `sshpass` copy of the directory that ends with `jyb@<host>:<pier_temp_path>` |
| `Legacy.LegacyPodFor` | k8s-ethereum/main.py:318-328 | pod and container named `pier-0-j`; three mounts, each naming the volume at the same position, every volume under the working directory |
| `Legacy.Prepared` | k8s-ethereum/main.py:291-294 | after `rm -rf` and `cp -r base`, the directory holds both TOML files |
| `Legacy.LegacyCreateDeploymentPier` | k8s-ethereum/main.py:259-331 | a short listing line raises IndexError before anything is done; otherwise commands, files, pods and status equal the fold `LRun` over the graph |
| `Legacy.RelayRound` | k8s-ethereum/main.py:282-331 | one relay of the loop equals `RelayStep` |
| `Legacy.PopChains` | k8s-ethereum/main.py:286-287 | succeeds exactly when the pool holds n IPs, and then returns `Popped` and the rest |
| `Legacy.ConfigureChains` | k8s-ethereum/main.py:296-331 | the chain loop equals `ChainsRun`, ending in KeyError exactly when it stops |
| `Legacy.ConfigureChain` | k8s-ethereum/main.py:297-331 | one chain listed in `addr.json` equals `ChainStep` |
| `Legacy.GraphStep` | k8s-ethereum/main.py:281 | one more relay is one more `RelayStep` (proof step) |
| `Legacy.GraphStop` | k8s-ethereum/main.py:281-331 | a stopped loop's state is the whole call's state |
| `Legacy.ChainsSnoc` | k8s-ethereum/main.py:296 | one more chain is one more `ChainStep` (proof step) |
| `Legacy.ChainsStop` | k8s-ethereum/main.py:297-300 | a stopped chain loop's state is the relay's state |
| `Legacy.LStoppedStaysStopped` | k8s-ethereum/main.py:281-331 | after an exception, no later relay changes anything |
| `Legacy.ChainsStoppedStaysStopped` | k8s-ethereum/main.py:296-331 | after a KeyError, no later chain changes anything |
| `Legacy.PoolsShrinkFromBack` | k8s-ethereum/main.py:282-287 | while running, the relay and Geth pools have lost exactly their last `|graph|` and `sum(graph)` IPs |
| `Legacy.RelayStepPools` | k8s-ethereum/main.py:282-287 | a relay that goes on popped one relay IP and n Geth IPs from the back, and bound `j` |
| `Legacy.RelayStepDirectory` | k8s-ethereum/main.py:290-296 | a relay with n chains uses the directory `base + str(i) + str(n-1)` and configures its popped chains there |
| `Legacy.UnboundJ` | k8s-ethereum/main.py:290 | a first relay without chains raises NameError before any command |
| `Legacy.ChainlessRelayReusesJ` | k8s-ethereum/main.py:290-294 | a later relay without chains reuses the leaked `j` and only empties and copies a directory |
| `Legacy.Copies` | k8s-ethereum/main.py:311-316 | two scp commands per chain, to the two fixed hosts |
| `Legacy.ChainPods` | k8s-ethereum/main.py:318-328 | pod k is `pier-0-k`, whatever the relay |
| `Legacy.SharedDirectory` | k8s-ethereum/main.py:296-331 | when all chains go through, the commands are two copies of the one shared directory per chain, and the pods are `pier-0-0` to `pier-0-(n-1)` |
| `Legacy.LastChainWins` | k8s-ethereum/main.py:296-309 | when all chains go through, the shared directory's files hold the last chain's settings alone |
| `Legacy.ChainsUpdate` | k8s-ethereum/main.py:298-309 | rewriting for a second chain replaces the settings of the first |
| `Legacy.ChainAppends` | k8s-ethereum/main.py:311-330 | a chain that goes on appends its two copies and its pod |
| `Legacy.ChainRewrites` | k8s-ethereum/main.py:297-309 | a chain that goes on rewrites both files of the directory |
| `Register.Votes` | k8s/main.py:552-554 | three approvals of the proposal, by node 1, node 2 and node 3, in the relay's pod |
| `Register.ExecShape` | k8s/main.py:517-521 | `kubectl exec -it <pod>`, ending with the command |
| `Register.CopyShape` | k8s/main.py:526 | a `kubectl cp` of the configured binary to the pier pod |
| `Register.FundShape` | k8s/main.py:536 | a transfer signed with node1's key, to the pier's account |
| `Register.AppchainRegisterShape` | k8s/main.py:539-549 | an appchain registration in the pier repository whose first option is the entry's appchain id |
| `Register.VoteShape` | k8s/main.py:553 | a vote run in the repository of validator node<n> |
| `Register.ServiceRegisterShape` | k8s/main.py:556-562 | a service registration in the pier repository whose first option is the appchain id |
| `Register.Block` | k8s/main.py:523-567 | eleven commands, the copy of the binary first |
| `Register.BlockRunsInPods` | k8s/main.py:523-567 | every command of a block but the copy runs inside a pod with `kubectl exec` |
| `Register.Registration` | k8s/main.py:539-567 | eight commands: a registration and its three votes, twice |
| `Register.Step` | k8s/main.py:523-567 | one pier: a stopped loop stays as it is; commands only grow; the loop keeps running iff the pier goes through (listed in `pier_<ns>.json`, its chain in `deploy_<ns>.json`, an account shown), and then its whole eleven-command block is appended; a pod missing from `pier_<ns>.json` raises KeyError right after the copy; a key show with no word raises IndexError right after the key show; a chain missing from `deploy_<ns>.json` raises KeyError right after the funding |
| `Register.Run` | k8s/main.py:523-567 | the fold: at most eleven commands per pier, exactly eleven per pier while running |
| `Register.StepAddsBlock` | k8s/main.py:523-567 | a pier that goes through appends its eleven-command block |
| `Register.PierPods` | k8s/main.py:513-514 | the pier pod names: Ok exactly when every non-empty listing line has a field; then the first field of each line |
| `Register.Register` | k8s/main.py:490-567 | the whole loop over the listed pier pods equals the fold `Run`; an empty listing line raises IndexError first |
| `Register.HandlePier` | k8s/main.py:523-567 | the loop body for one pier pod run from a running state gives exactly `Step`'s commands and status, so `Step`'s raise conditions hold for it |
| `Register.RegisterAppchain` | k8s/main.py:539-567 | appends the registration, the votes, the service registration and its votes |
| `Register.Vote` | k8s/main.py:565-567 | appends three votes |
| `Register.StoppedStaysStopped` | k8s/main.py:530-547 | after an exception, no later pier changes anything (the registration loop's own fold, not the deployment's) |
| `Register.BlockShape` | k8s/main.py:526-567 | a pier's eleven commands in order: copy, key show, funding, appchain registration with broker and admin, votes on `<id>-0`, service registration with the transfer contract, votes on `<id>-1` |
| `Register.RunIsBlocks` | k8s/main.py:523-567 | when every pier goes through, the loop keeps running and its commands are the piers' blocks end to end |
| `Register.BlocksAt` | k8s/main.py:523-567 | block k of those is the block of pier k |
| `Register.RunningIffAllGoThrough` | k8s/main.py:523-567 | the loop runs to the end exactly when every pier of the listing goes through |
| `Register.FirstFailureStops` | k8s/main.py:523-567 | the loop stops at the first pier that does not go through: the earlier piers' blocks run in order, then that pier's step, which raises, ends the run |
| `Register.AllRegistered` | k8s/main.py:523-567 | when every pier goes through, there are 11 commands per pier and block k is pier k's, in order |
| `Register.BlockAt` | k8s/main.py:523 | the blocks of earlier piers are not moved by a later one |
| `Register.OnlyKeyShowIsRead` | k8s/main.py:533-567 | only the key show's output is read; what the other commands print changes nothing |
| `Register.CommandsGrow` | k8s/main.py:523-567 | commands are only ever appended |
| `Register.FundedBeforeLookup` | k8s/main.py:536-547 | a chain missing from `deploy_<ns>.json` raises KeyError only after the account has been funded |
| `Eth.HexChar` | k8s/eth.py:11 | a hex digit of `hexdigest()`: ASCII, not `x`, not upper-case |
| `Eth.HexValueOfHexChar` | k8s/eth.py:13 | parsing a hex digit gives back its nibble |
| `Eth.HexDigest` | k8s/eth.py:11 | `hexdigest()`: 64 lower-case hex digits |
| `Eth.BytesHex` | k8s/eth.py:28-29 | `bytes.hex()`: two characters per byte |
| `Eth.Ascii` | k8s/eth.py:10 | `encode('ascii')`: one byte per character |
| `Eth.RemoveOx` | k8s/eth.py:9 | `replace('0x', '')`: the result is no longer than the input |
| `Eth.Stripped` | k8s/eth.py:9 | the hashed address: lower-case and ASCII |
| `Eth.Cased` | k8s/eth.py:12-16 | character i is upper-cased by digest nibble i |
| `Eth.Checksum` | k8s/eth.py:6-17 | Ok exactly when the stripped address has at most 64 characters, otherwise IndexError; when Ok, `0x` followed by one character per address character |
| `Eth.ChecksumEncode` | k8s/eth.py:6-17 | equals `Checksum`: IndexError when the stripped address is longer than the 64-digit digest |
| `Eth.LowerIsAscii` | k8s/eth.py:9 | lower-casing keeps ASCII and leaves no upper-case letter |
| `Eth.RemoveOxKeeps` | k8s/eth.py:9 | removing `0x` only drops characters: every character left was in the text |
| `Eth.ChecksumIsEip55` | k8s/eth.py:6-17 | the encoding succeeds exactly when the stripped address has at most 64 characters, and is then the EIP-55 encoding of it |
| `Eth.Eip55Unique` | k8s/eth.py:12-17 | at most one string is the EIP-55 encoding of an address under a digest |
| `Eth.ChecksumLowered` | k8s/eth.py:12-17 | lower-casing the encoding gives `0x` and the stripped address back |
| `Eth.RemoveOxNoOx` | k8s/eth.py:9 | text without `0x` is unchanged by the removal |
| `Eth.ChecksumIdempotent` | k8s/eth.py:6-17 | encoding an encoding changes nothing when the stripped address holds no `0x` |
| `Eth.ChecksumNotIdempotent` | k8s/eth.py:9 | `00xx` strips to `0x`, and encoding its encoding gives a different result |
| `Eth.CreateEthAddress` | k8s/eth.py:19-30 | the keys in hex, and the address is the checksum of the last 40 digest digits of the public key: 42 characters, lower-casing to `0x` plus those digits |
| `Eth.HexTailIsAscii` | k8s/eth.py:26 | the last 40 digest digits are ASCII |
| `Eth.HexTailStripped` | k8s/eth.py:26 | the last 40 digest digits are their own stripped form |
| `Eth.Alloc` | k8s/eth.py:61-62 | one entry per account address, each funded with the initial balance |
| `Eth.GenesisContent` | k8s/eth.py:33-64 | chain 15 with every fork from block 0, difficulty 1, gas limit 8000000, and alloc built from `accounts[1:]` |
| `Eth.GenesisFundsAllButFirst` | k8s/eth.py:61-62 | an address is funded exactly when some account after the first has it, and then with the initial balance |
| `Eth.CoinbaseNotFunded` | k8s/eth.py:38 | the coinbase is not funded unless a later account shares its address |
| `Eth.InitialBalanceIsMillionEther` | k8s/eth.py:40-41 | `0xD3C21BCECCEDA1000000` is 10^24 wei, one million ether |
| `Eth.HexQuad` | k8s/eth.py:41 | reading four more hex digits multiplies by 65536 and adds their value |
| `Eth.HexNumberStep` | k8s/eth.py:41 | reading one more hex digit multiplies by 16 and adds its value |
| `Cluster.AlreadyExistsTest` | k8s/main.py:51 | inconclusive exactly when `code` is missing, or is 409 with `reason` missing, following short-circuit order; true exactly when `code` is 409 and `reason` is `AlreadyExists` |
| `Cluster.TolerantCreate` | k8s/main.py:46-54 | swallowed exactly when the body says 409 `AlreadyExists`; Done exactly on success; a decode error exactly when the body is not JSON; a missing key exactly when `code` is absent, or is 409 without `reason`; re-raised unchanged exactly when `code` is present and is not 409, or is 409 with another reason |
| `Cluster.TolerantDelete` | k8s/main.py:58-67 | swallowed exactly on HTTP status 404; Done exactly on success; the body is never read |
| `Cluster.StrictCreate` | k8s/main.py:128-138 | Done exactly on success; every error re-raised |
| `Cluster.OnlyLightClientToleratesExisting` | k8s/main.py:128-138 | an existing namespace is swallowed by the light client and re-raised by the private network |
| `Cluster.CreateReadsBodyDeleteReadsStatus` | k8s/main.py:51-60 | create reads the body and delete reads the status |
| `Cluster.CreateAll` | k8s/main.py:104-107 | namespace, service and deployment in order, stopping at the first call that does not return |
| `Cluster.CreateTwiceSucceeds` | k8s/main.py:104-107 | creating everything again is swallowed at every call |

## Left out

- **Kubernetes calls.** Nothing is sent to Kubernetes.
  - Requests and pods are records of the fields the scripts set.
  - The YAML templates are not read.
  - `Cluster` models only how an answer is handled.
- **Subprocesses.** `os.system` and `os.popen` are modelled as the command
  line they run.
  - Outputs come from a `run` parameter, or are listing strings passed in.
  - Exit statuses are ignored, as in the scripts.
- **Polling.** `create_by_config` polls forever with a sleep between polls.
  It is modelled as one poll of each listing (`PodListing.PollOnce`), so a
  listing that never resolves is outside the model.
- **Key generation and Keccak-256.** These are parameters: a key pair, and a
  function from bytes to a 64-digit digest.
- **Files.**
  - JSON, TOML and YAML reading, writing and serialisation are modelled as
    values passed in and returned.
  - A missing file is not modelled, nor a file holding JSON `null` (which
    would take the `is None` early returns).
  - A malformed document is not modelled either.
  - Configuration keys are assumed present: the `KeyError` of a missing
    `config[...]` key, or of an item field, is not modelled. `KeyError`s on
    the documents' IP and pod keys are modelled.
- **Pier initialisation.** What `pier init` and `cp -r` put into a working
  directory is the `pierToml`/`etherToml` parameters. Files other than the
  two TOML files are not modelled.
- **Logging.** `print`, logging and command echoes are left out. So is the
  unused `pierIpList` in `register`.
- **Federation.** The federation/union scripts, the CLI entry points, the
  legacy `delete` and `create_accounts` are not part of this model.
- **Dictionary order.** The graph document is a sequence in insertion order.
  Its relay names are `bitxhub-<i>`, which are distinct
  (`Provision.RelayNamesDistinct`), so the dictionary and the sequence agree.
- **JSON error bodies that are not objects.** `Cluster` represents an
  exception body as an optional JSON object. A body that decodes to `null`, a
  list or a number, where `error['code']` raises TypeError, is not
  represented. Neither is the TypeError of `json.loads(None)`: a missing body
  is modelled as a decode failure.
- **TOML tables of the templates.** The rewrites of `pier.toml` and
  `ethereum.toml` write path-keyed entries into flat maps. The tables they
  write into (`mode.relay`, `mode.union`, `appchain`, `ether`, …) are assumed
  present in the templates. The KeyError Python raises when a template lacks
  such a table is not modelled.
- `Eth.ChecksumEncode`: requires ASCII input. For other input, Python's
  Unicode case mapping and the `UnicodeEncodeError` of `encode('ascii')` are
  not modelled.
- `Eth.Checksum`: the same ASCII precondition.
