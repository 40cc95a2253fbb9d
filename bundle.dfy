/** The configuration bundle of one pier: the two TOML files the scripts
    rewrite and the path arithmetic they use (k8s/main.py:426-448,
    k8s-ethereum/main.py:290-309). A TOML document is modelled as a map from
    dotted key paths to values; reading, parsing and dumping are left out. */
module Bundle {

  import opened Text

  datatype TomlValue = Str(s: string) | StrList(items: seq<string>)

  /** A parsed TOML document: `t[["mode", "relay", "addrs"]]` is
      `pier_toml['mode']['relay']['addrs']`. */
  type Toml = map<seq<string>, TomlValue>

  const RelayAddrsKey: seq<string> := ["mode", "relay", "addrs"]
  const RelayTimeoutKey: seq<string> := ["mode", "relay", "timeout_limit"]
  const UnionAddrsKey: seq<string> := ["mode", "union", "addrs"]
  const AppchainIdKey: seq<string> := ["appchain", "id"]
  const AppchainPluginKey: seq<string> := ["appchain", "plugin"]
  const AppchainConfigKey: seq<string> := ["appchain", "config"]
  const EtherAddrKey: seq<string> := ["ether", "addr"]
  const EtherContractKey: seq<string> := ["ether", "contract_address"]

  /** The keys of `pier.toml` the current script sets. */
  const PierKeys: set<seq<string>> :=
    {RelayAddrsKey, RelayTimeoutKey, UnionAddrsKey, AppchainIdKey, AppchainPluginKey, AppchainConfigKey}

  /** The keys of `pier.toml` the older script sets. */
  const LegacyPierKeys: set<seq<string>> := {RelayAddrsKey, UnionAddrsKey, AppchainIdKey}

  /** The keys of `ether/ethereum.toml` both scripts set. */
  const EtherKeys: set<seq<string>> := {EtherAddrKey, EtherContractKey}

  /** `[bitxhubIp + ':6001{}'.format(i) for i in range(1, 5)]`: the four gRPC
      endpoints of a relay node. */
  function RelayAddrs(relayIp: string): (addrs: seq<string>)
    ensures |addrs| == 4
  {
    seq(4, k requires 0 <= k < 4 => relayIp + ":6001" + NatToString(k + 1))
  }

  /** The four endpoints are the ports 60011 to 60014 of the relay, in order. */
  lemma RelayAddrsArePorts(relayIp: string)
    ensures RelayAddrs(relayIp)
         == [relayIp + ":60011", relayIp + ":60012", relayIp + ":60013", relayIp + ":60014"]
  {
    var a := RelayAddrs(relayIp);
    assert NatToString(1) == "1" && NatToString(2) == "2";
    assert NatToString(3) == "3" && NatToString(4) == "4";
    assert a[0] == relayIp + ":6001" + "1" == relayIp + ":60011";
    assert a[1] == relayIp + ":6001" + "2" == relayIp + ":60012";
    assert a[2] == relayIp + ":6001" + "3" == relayIp + ":60013";
    assert a[3] == relayIp + ":6001" + "4" == relayIp + ":60014";
  }

  /** Two documents agree outside a set of keys. */
  ghost predicate SameOutside(t: Toml, u: Toml, keys: set<seq<string>>) {
    forall p :: p !in keys ==> (p in t <==> p in u) && (p in t ==> t[p] == u[p])
  }

  /** The current script's `pier.toml`: the relay and union endpoints of the
      relay node, a ten second relay timeout, and the appchain registered as
      `appchainId` through the `eth-client` plugin configured from `ether`. */
  function RewritePierToml(t: Toml, relayIp: string, appchainId: string): (u: Toml)
    ensures u.Keys == t.Keys + PierKeys
    ensures u[RelayAddrsKey] == StrList(RelayAddrs(relayIp)) && u[UnionAddrsKey] == StrList(RelayAddrs(relayIp))
    ensures u[RelayTimeoutKey] == Str("10s")
    ensures u[AppchainIdKey] == Str(appchainId)
    ensures u[AppchainPluginKey] == Str("eth-client") && u[AppchainConfigKey] == Str("ether")
    ensures SameOutside(t, u, PierKeys)
  {
    var addrs := StrList(RelayAddrs(relayIp));
    t[RelayAddrsKey := addrs][RelayTimeoutKey := Str("10s")][UnionAddrsKey := addrs]
     [AppchainIdKey := Str(appchainId)][AppchainPluginKey := Str("eth-client")][AppchainConfigKey := Str("ether")]
  }

  /** The older script's `pier.toml`: endpoints and appchain id only. */
  function RewriteLegacyPierToml(t: Toml, relayIp: string, appchainId: string): (u: Toml)
    ensures u.Keys == t.Keys + LegacyPierKeys
    ensures u[RelayAddrsKey] == StrList(RelayAddrs(relayIp)) && u[UnionAddrsKey] == StrList(RelayAddrs(relayIp))
    ensures u[AppchainIdKey] == Str(appchainId)
    ensures SameOutside(t, u, LegacyPierKeys)
  {
    var addrs := StrList(RelayAddrs(relayIp));
    t[RelayAddrsKey := addrs][UnionAddrsKey := addrs][AppchainIdKey := Str(appchainId)]
  }

  /** `ether/ethereum.toml`: the chain's websocket endpoint and its broker. */
  function RewriteEtherToml(t: Toml, ethIp: string, broker: string): (u: Toml)
    ensures u.Keys == t.Keys + EtherKeys
    ensures u[EtherAddrKey] == Str("ws://" + ethIp + ":8546")
    ensures u[EtherContractKey] == Str(broker)
    ensures SameOutside(t, u, EtherKeys)
  {
    t[EtherAddrKey := Str("ws://" + ethIp + ":8546")][EtherContractKey := Str(broker)]
  }

  /** Rewriting an already rewritten file leaves only the last rewrite: this
      is what the older script does when several chains share one working
      directory, so the directory ends up configured for its last chain only. */
  lemma LegacyRewritesOverwrite(t: Toml, ip1: string, id1: string, ip2: string, id2: string)
    ensures RewriteLegacyPierToml(RewriteLegacyPierToml(t, ip1, id1), ip2, id2)
         == RewriteLegacyPierToml(t, ip2, id2)
  {
    var u := RewriteLegacyPierToml(RewriteLegacyPierToml(t, ip1, id1), ip2, id2);
    var v := RewriteLegacyPierToml(t, ip2, id2);
    assert u.Keys == v.Keys;
    forall p | p in u.Keys ensures u[p] == v[p] {
      if p !in LegacyPierKeys {
        assert u[p] == RewriteLegacyPierToml(t, ip1, id1)[p] == t[p];
      }
    }
  }

  lemma EtherRewritesOverwrite(t: Toml, ip1: string, b1: string, ip2: string, b2: string)
    ensures RewriteEtherToml(RewriteEtherToml(t, ip1, b1), ip2, b2) == RewriteEtherToml(t, ip2, b2)
  {
    var u := RewriteEtherToml(RewriteEtherToml(t, ip1, b1), ip2, b2);
    var v := RewriteEtherToml(t, ip2, b2);
    assert u.Keys == v.Keys;
    forall p | p in u.Keys ensures u[p] == v[p] {
      if p !in EtherKeys {
        assert u[p] == RewriteEtherToml(t, ip1, b1)[p] == t[p];
      }
    }
  }

  /** The two files of a pier working directory. */
  const PierTomlFile: string := "pier.toml"
  const EtherTomlFile: string := "ether/ethereum.toml"

  /** The two files of a working directory never share a path. */
  lemma TomlPathsDistinct(dir: string)
    ensures PathJoin(dir, PierTomlFile) != PathJoin(dir, EtherTomlFile)
  {
    var p, e := PathJoin(dir, PierTomlFile), PathJoin(dir, EtherTomlFile);
    PathJoinShape(dir, PierTomlFile);
    PathJoinShape(dir, EtherTomlFile);
    assert p[|p| - |PierTomlFile|..] == PierTomlFile;
    assert e[|e| - |EtherTomlFile|..] == EtherTomlFile;
  }

  /** `os.path.join(a, b)` on POSIX: an absolute `b` replaces `a`; otherwise a
      separator is inserted unless `a` is empty or already ends with one. */
  function PathJoin(a: string, b: string): string {
    if b != [] && b[0] == '/' then b
    else if a == [] || a[|a| - 1] == '/' then a + b
    else a + "/" + b
  }

  /** A relative second part is kept whole at the end, after the whole first
      part; an absolute one is the result. */
  lemma PathJoinShape(a: string, b: string)
    ensures var p := PathJoin(a, b);
      && (b != [] && b[0] == '/' ==> p == b)
      && ((b == [] || b[0] != '/') ==> a <= p && |b| <= |p| && p[|p| - |b|..] == b)
      && ((b == [] || b[0] != '/') && a != [] && a[|a| - 1] != '/' ==> p == a + "/" + b)
  {
    var p := PathJoin(a, b);
    if b == [] || b[0] != '/' {
      var head := if a == [] || a[|a| - 1] == '/' then a else a + "/";
      assert p == head + b;
    }
  }
}
