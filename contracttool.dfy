/** The three `goduck` invocations both copies of `PrivateNetwork.deploy` make
    for one geth appchain (k8s/main.py:340-356, k8s-ethereum/main.py:237-253),
    with the tool abstracted as `run`: the text a command line prints. */
module ContractTool {

  import opened Outcome
  import opened Text

  /** The external tool: the standard output of a shell command line. */
  type Tool = string -> string

  /** The validator addresses and the admin address the broker is constructed
      with, as the command line spells them. */
  const Validators: string :=
    "[\"0xc7F999b83Af6DF9e67d0a37Ee7e900bF38b3D013\",\"0x79a1215469FaB6f9c63c1816b45183AD3624bE34\",\"0x97c8B516D19edBf575D72a172Af7F418BE498C37\",\"0xc0Ff2e0b3189132D815b8eb325bE17285AC898f8\"]"
  const Admins: string := "[\"0x20F7Fac801C5Fc3f7E20cFbADaA1CDb33d818Fa3\"]"

  /** The broker deployment; the constructor string names the relay id and the
      appchain `ethappchain<chainNo>`. */
  function BrokerCmd(ethIp: string, relayId: string, chainNo: string): (c: string)
    ensures DeployPrefix <= c
  {
    DeployPrefix + (BrokerPath + ethIp + BrokerArgs0 + relayId + BrokerArgs1 + chainNo + BrokerArgs2)
  }

  /** The transfer contract deployment, constructed with the broker address. */
  function TransferCmd(ethIp: string, broker: string): (c: string)
    ensures DeployPrefix <= c
  {
    DeployPrefix + (TransferAddr + ethIp + TransferPath + broker + GrepHex)
  }

  const BrokerPath: string := "--code-path $HOME/goduck/scripts/example/broker.sol --address http://"
  const BrokerArgs0: string := ":8545  \""
  const BrokerArgs1: string := "^ethappchain"
  const BrokerArgs2: string := "^" + Validators + "^1^" + Admins + "^1\"| grep 0x"
  const TransferAddr: string := "--address http://"
  const TransferPath: string := ":8545  --code-path $HOME/goduck/scripts/example/transfer.sol "
  const GrepHex: string := "| grep 0x"
  const AuditKeys: string := "--key-path $HOME/goduck/scripts/docker/quick_start/account.key --abi-path $HOME/goduck/scripts/example/broker.abi --address http://"
  const AuditPort: string := ":8545 "
  const AuditArg0: string := " audit \""
  const AuditArg1: string := "^1\""
  const DeployPrefix: string := "goduck ether contract deploy "
  const AuditPrefix: string := "goduck ether contract invoke "

  /** The audit call that whitelists the transfer contract at the broker. */
  function AuditCmd(ethIp: string, broker: string, transfer: string): (c: string)
    ensures AuditPrefix <= c
  {
    AuditPrefix + AuditKeys + ethIp + AuditPort + broker + AuditArg0 + transfer + AuditArg1
  }

  /** How the deployment of one chain ends. */
  datatype ChainOutcome =
    | Deployed(broker: string, transfer: string)
    | BrokerEmpty              // `if broker_addr == "": ... return`
    | Crashed                  // `.split()[-1]` of blank output raises IndexError

  /** The command lines run for one chain, in order, and how it ends. An empty
      broker output is reported by running the same command once more (its
      output is only printed); the audit's output is read and discarded. */
  function DeployChain(ethIp: string, relayId: string, chainNo: string, run: Tool)
    : (r: (seq<string>, ChainOutcome))
    ensures 1 <= |r.0| <= 3 && r.0[0] == BrokerCmd(ethIp, relayId, chainNo)
    ensures r.1.Deployed? <==> |r.0| == 3
  {
    var c1 := BrokerCmd(ethIp, relayId, chainNo);
    var brokerOut := run(c1);
    if brokerOut == [] then ([c1, c1], BrokerEmpty)
    else match LastWord(brokerOut)
      case None => ([c1], Crashed)
      case Some(broker) =>
        var c2 := TransferCmd(ethIp, broker);
        match LastWord(run(c2))
        case None => ([c1, c2], Crashed)
        case Some(transfer) => ([c1, c2, AuditCmd(ethIp, broker, transfer)], Deployed(broker, transfer))
  }

  /** The body of the deployment loop for one chain: two deployments with
      `goduck`, then the audit, stopping early as `DeployChain` says. */
  method DeployOnChain(ethIp: string, relayId: string, chainNo: string, run: Tool)
    returns (cmds: seq<string>, out: ChainOutcome)
    ensures (cmds, out) == DeployChain(ethIp, relayId, chainNo, run)
  {
    var c1 := BrokerCmd(ethIp, relayId, chainNo);
    var brokerAddr := run(c1);
    if brokerAddr == [] {
      return [c1, c1], BrokerEmpty;
    }
    var broker := LastWord(brokerAddr);
    if broker.None? {
      return [c1], Crashed;
    }
    var c2 := TransferCmd(ethIp, broker.value);
    var transfer := LastWord(run(c2));
    if transfer.None? {
      return [c1, c2], Crashed;
    }
    var c3 := AuditCmd(ethIp, broker.value, transfer.value);
    var _ := run(c3);
    return [c1, c2, c3], Deployed(broker.value, transfer.value);
  }

  /** What one chain's deployment runs and records: an empty broker output
      stops it after the repeated broker command; otherwise the broker and
      transfer addresses are the last words the two deployments print, and the
      audit runs with both. */
  lemma DeployChainSteps(ethIp: string, relayId: string, chainNo: string, run: Tool)
    ensures var r := DeployChain(ethIp, relayId, chainNo, run);
      var c1 := BrokerCmd(ethIp, relayId, chainNo);
      && (r.1.BrokerEmpty? <==> run(c1) == [])
      && (r.1.BrokerEmpty? ==> r.0 == [c1, c1])
      && (r.1.Crashed? <==>
            var out := run(c1);
            out != [] && (Words(out) == [] || Words(run(TransferCmd(ethIp, Words(out)[|Words(out)| - 1]))) == []))
      && (r.1.Deployed? ==>
            var c2 := TransferCmd(ethIp, r.1.broker);
            && LastWord(run(c1)) == Some(r.1.broker)
            && LastWord(run(c2)) == Some(r.1.transfer)
            && IsWord(r.1.broker) && IsWord(r.1.transfer)
            && r.0 == [c1, c2, AuditCmd(ethIp, r.1.broker, r.1.transfer)])
  {
  }

  /** Two tools that print the same for every command except audit calls. */
  ghost predicate AgreeExceptAudit(run1: Tool, run2: Tool) {
    forall c :: !(AuditPrefix <= c) ==> run1(c) == run2(c)
  }

  lemma DeployCommandsAreNotAudits(ethIp: string, relayId: string, chainNo: string, broker: string)
    ensures !(AuditPrefix <= BrokerCmd(ethIp, relayId, chainNo))
    ensures !(AuditPrefix <= TransferCmd(ethIp, broker))
  {
    assert DeployPrefix[22] == 'd' && AuditPrefix[22] == 'i';
  }

  /** The audit is best effort: what it prints cannot change what a chain's
      deployment does or records. */
  lemma AuditOutputIgnored(ethIp: string, relayId: string, chainNo: string, run1: Tool, run2: Tool)
    requires AgreeExceptAudit(run1, run2)
    ensures DeployChain(ethIp, relayId, chainNo, run1) == DeployChain(ethIp, relayId, chainNo, run2)
  {
    var c1 := BrokerCmd(ethIp, relayId, chainNo);
    DeployCommandsAreNotAudits(ethIp, relayId, chainNo, []);
    assert run1(c1) == run2(c1);
    match LastWord(run1(c1))
    case None =>
    case Some(broker) =>
      DeployCommandsAreNotAudits(ethIp, relayId, chainNo, broker);
      assert run1(TransferCmd(ethIp, broker)) == run2(TransferCmd(ethIp, broker));
  }
}
