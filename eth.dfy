/** The Ethereum helpers of k8s/eth.py: the mixed-case checksum encoding of
    an address (EIP-55), the address slice of a fresh key pair, and the geth
    genesis document that funds the generated accounts. Keccak-256 and key
    generation are parameters; JSON serialisation is left out. */
module Eth {

  import opened Outcome
  import opened Text

  type Byte = b: int | 0 <= b < 256
  type Nibble = n: int | 0 <= n < 16

  const ZeroDigest: seq<Nibble> := seq(64, _ => 0)

  /** A Keccak-256 digest as its 64 hex nibbles, most significant first. */
  type Digest = d: seq<Nibble> | |d| == 64 witness ZeroDigest

  /** The hash function, treated as an oracle. */
  type Keccak = seq<Byte> -> Digest

  // ---------------------------------------------------------------------------
  // Hex text
  // ---------------------------------------------------------------------------

  const HexDigits: string := "0123456789abcdef"

  /** A nibble as `hexdigest()` prints it: lower-case. */
  function HexChar(n: Nibble): (c: char)
    ensures IsAscii(c) && c != 'x' && !('A' <= c <= 'Z')
  {
    HexDigits[n]
  }

  predicate IsHexChar(c: char) {
    '0' <= c <= '9' || 'a' <= c <= 'f' || 'A' <= c <= 'F'
  }

  /** `int(c, 16)` for one hex digit. */
  function HexValue(c: char): (n: Nibble)
    requires IsHexChar(c)
  {
    if '0' <= c <= '9' then c as int - '0' as int
    else if 'a' <= c <= 'f' then c as int - 'a' as int + 10
    else c as int - 'A' as int + 10
  }

  /** Reading back a printed nibble gives the nibble. */
  lemma HexValueOfHexChar(n: Nibble)
    ensures IsHexChar(HexChar(n)) && HexValue(HexChar(n)) == n
  {
  }

  /** `hexdigest()`: the 64 lower-case hex characters of a digest. */
  function HexDigest(d: Digest): (h: string)
    ensures |h| == 64 && forall i :: 0 <= i < 64 ==> h[i] == HexChar(d[i])
  {
    seq(64, i requires 0 <= i < 64 => HexChar(d[i]))
  }

  /** `int(s, 16)` for a string of hex digits. */
  function HexNumber(s: string): nat
    requires forall c <- s :: IsHexChar(c)
  {
    if s == [] then 0
    else
      assert s[|s| - 1] in s;
      assert forall c <- s[..|s| - 1] :: c in s;
      HexNumber(s[..|s| - 1]) * 16 + HexValue(s[|s| - 1])
  }

  /** `bytes.hex()`: two lower-case hex characters per byte. */
  function BytesHex(bs: seq<Byte>): (h: string)
    ensures |h| == 2 * |bs|
  {
    if bs == [] then [] else BytesHex(bs[..|bs| - 1]) + [HexChar(bs[|bs| - 1] / 16), HexChar(bs[|bs| - 1] % 16)]
  }

  /** `s.encode('ascii')`. */
  function Ascii(s: string): (bs: seq<Byte>)
    requires forall c <- s :: IsAscii(c)
    ensures |bs| == |s|
  {
    seq(|s|, i requires 0 <= i < |s| => assert s[i] in s; AsciiByte(s[i]))
  }

  function AsciiByte(c: char): Byte
    requires IsAscii(c)
  {
    c as int
  }

  // ---------------------------------------------------------------------------
  // checksum_encode
  // ---------------------------------------------------------------------------

  /** `s.replace('0x', '')`: the occurrences are found left to right and do
      not overlap, and what is left after a removal is not searched again
      together with what came before. */
  function RemoveOx(s: string): (r: string)
    ensures |r| <= |s|
  {
    if |s| < 2 then s
    else if s[0] == '0' && s[1] == 'x' then RemoveOx(s[2..])
    else [s[0]] + RemoveOx(s[1..])
  }

  /** `s` holds no `0x`. */
  predicate NoOx(s: string) {
    forall i :: 0 <= i < |s| - 1 ==> !(s[i] == '0' && s[i + 1] == 'x')
  }

  /** The address as it is hashed: lower-cased, every `0x` removed. */
  function Stripped(addrStr: string): (r: string)
    requires forall c <- addrStr :: IsAscii(c)
    ensures forall c <- r :: IsAscii(c) && !('A' <= c <= 'Z')
  {
    var l := Lower(addrStr);
    LowerIsAscii(addrStr);
    RemoveOxKeeps(l);
    RemoveOx(l)
  }

  /** Character i of the encoding: the address character, upper-cased when
      its digest nibble is 8 or more. */
  function CaseChar(c: char, n: Nibble): char {
    if n >= 8 then UpperChar(c) else c
  }

  function Cased(addr: string, d: seq<Nibble>): (r: string)
    requires |addr| <= |d|
    ensures |r| == |addr| && forall i :: 0 <= i < |addr| ==> r[i] == CaseChar(addr[i], d[i])
  {
    seq(|addr|, i requires 0 <= i < |addr| => CaseChar(addr[i], d[i]))
  }

  /** The checksum encoding as a function of its input: character i of the
      stripped address is upper-cased when hex digit i of the digest of the
      stripped address is 8 or more. An address longer than the 64-digit
      digest runs off its end. */
  function Checksum(addrStr: string, keccak: Keccak): (r: Result<string>)
    requires forall c <- addrStr :: IsAscii(c)
    ensures r.Ok? <==> |Stripped(addrStr)| <= 64
    ensures r.Raise? ==> r.exc == IndexError
    ensures r.Ok? ==> |r.value| == |Stripped(addrStr)| + 2 && r.value[..2] == "0x"
  {
    var addr := Stripped(addrStr);
    if |addr| > 64 then Raise(IndexError) else Ok("0x" + Cased(addr, keccak(Ascii(addr))))
  }

  /** `checksum_encode`, proved against `Checksum`. */
  method ChecksumEncode(addrStr: string, keccak: Keccak) returns (r: Result<string>)
    requires forall c <- addrStr :: IsAscii(c)
    ensures r == Checksum(addrStr, keccak)
  {
    var out := "";
    var addr := RemoveOx(Lower(addrStr));
    assert addr == Stripped(addrStr);
    var hashAddr := HexDigest(keccak(Ascii(addr)));
    ghost var d := keccak(Ascii(addr));
    for i := 0 to |addr|
      invariant i <= 64 && out == Cased(addr[..i], d)
    {
      if i >= |hashAddr| {
        // `hash_addr[i]` past the end of the digest
        return Raise(IndexError);
      }
      HexValueOfHexChar(d[i]);
      if HexValue(hashAddr[i]) >= 8 {
        out := out + [UpperChar(addr[i])];
      } else {
        out := out + [addr[i]];
      }
      assert out == Cased(addr[..i + 1], d);
    }
    assert addr[..|addr|] == addr;
    return Ok("0x" + out);
  }

  lemma LowerIsAscii(s: string)
    requires forall c <- s :: IsAscii(c)
    ensures forall c <- Lower(s) :: IsAscii(c) && !('A' <= c <= 'Z')
  {
    var l := Lower(s);
    forall c | c in l ensures IsAscii(c) && !('A' <= c <= 'Z') {
      var i :| 0 <= i < |l| && l[i] == c;
      assert s[i] in s;
    }
  }

  lemma {:induction false} RemoveOxKeeps(s: string)
    ensures forall c <- RemoveOx(s) :: c in s
    decreases |s|
  {
    if |s| >= 2 {
      if s[0] == '0' && s[1] == 'x' {
        RemoveOxKeeps(s[2..]);
        assert forall c <- s[2..] :: c in s;
      } else {
        RemoveOxKeeps(s[1..]);
        assert forall c <- s[1..] :: c in s;
      }
    }
  }

  predicate IsLetter(c: char) { 'a' <= c <= 'z' || 'A' <= c <= 'Z' }
  predicate IsUpper(c: char) { 'A' <= c <= 'Z' }

  /** EIP-55, stated without reference to how it is computed: `out` is `0x`
      followed by `addr` with its letters cased by the digest, each letter
      upper-case exactly when its digest nibble is 8 or more, and every other
      character unchanged. */
  predicate Eip55(addr: string, d: Digest, out: string) {
    && |addr| <= 64 && |out| == |addr| + 2 && out[..2] == "0x"
    && forall i :: 0 <= i < |addr| ==>
         && LowerChar(out[i + 2]) == addr[i]
         && (IsLetter(addr[i]) ==> (IsUpper(out[i + 2]) <==> d[i] >= 8))
         && (!IsLetter(addr[i]) ==> out[i + 2] == addr[i])
  }

  /** The encoding succeeds exactly when the stripped address fits the
      digest, and then it is the EIP-55 encoding of the stripped address
      under the digest of that address. */
  lemma ChecksumIsEip55(addrStr: string, keccak: Keccak)
    requires forall c <- addrStr :: IsAscii(c)
    ensures Checksum(addrStr, keccak).Ok? <==> |Stripped(addrStr)| <= 64
    ensures Checksum(addrStr, keccak).Ok? ==>
      var addr := Stripped(addrStr);
      Eip55(addr, keccak(Ascii(addr)), Checksum(addrStr, keccak).value)
  {
    var addr := Stripped(addrStr);
    if |addr| <= 64 {
      var out := Checksum(addrStr, keccak).value;
      forall i | 0 <= i < |addr|
        ensures LowerChar(out[i + 2]) == addr[i]
      {
        assert addr[i] in addr;
      }
    }
  }

  /** At most one string is the EIP-55 encoding of an address under a
      digest. */
  lemma Eip55Unique(addr: string, d: Digest, out1: string, out2: string)
    requires forall c <- addr :: IsAscii(c) && !('A' <= c <= 'Z')
    requires Eip55(addr, d, out1) && Eip55(addr, d, out2)
    ensures out1 == out2
  {
    forall k | 0 <= k < |out1| ensures out1[k] == out2[k] {
      if k < 2 {
        assert out1[k] == out1[..2][k] && out2[k] == out2[..2][k];
      } else {
        var i := k - 2;
        assert addr[i] in addr;
        if IsLetter(addr[i]) {
          assert 'a' <= addr[i] <= 'z';
        }
      }
    }
  }

  /** Lower-casing the encoding gives back `0x` and the stripped address. */
  lemma ChecksumLowered(addrStr: string, keccak: Keccak)
    requires forall c <- addrStr :: IsAscii(c)
    requires Checksum(addrStr, keccak).Ok?
    ensures var out := Checksum(addrStr, keccak).value;
      "0x" <= out && Lower(out) == "0x" + Stripped(addrStr)
  {
    ChecksumIsEip55(addrStr, keccak);
    var out := Checksum(addrStr, keccak).value;
    var addr := Stripped(addrStr);
    assert out[..2] == "0x";
    assert Lower(out)[0] == '0' && Lower(out)[1] == 'x';
    assert forall i :: 0 <= i < |addr| ==> Lower(out)[i + 2] == addr[i];
  }

  lemma {:induction false} RemoveOxNoOx(s: string)
    requires NoOx(s)
    ensures RemoveOx(s) == s
    decreases |s|
  {
    if |s| >= 2 {
      assert !(s[0] == '0' && s[1] == 'x');
      assert NoOx(s[1..]);
      RemoveOxNoOx(s[1..]);
    }
  }

  /** The encoding is idempotent on addresses that hold no `0x` once
      stripped, in particular on every hex address: the second call strips
      the same address and hashes the same text. */
  lemma ChecksumIdempotent(addrStr: string, keccak: Keccak)
    requires forall c <- addrStr :: IsAscii(c)
    requires Checksum(addrStr, keccak).Ok? && NoOx(Stripped(addrStr))
    ensures var out := Checksum(addrStr, keccak).value;
      (forall c <- out :: IsAscii(c)) && Checksum(out, keccak) == Checksum(addrStr, keccak)
  {
    var out := Checksum(addrStr, keccak).value;
    var addr := Stripped(addrStr);
    ChecksumLowered(addrStr, keccak);
    forall c | c in out ensures IsAscii(c) {
      var k :| 0 <= k < |out| && out[k] == c;
      if k >= 2 {
        assert addr[k - 2] in addr;
      }
    }
    RemoveOxNoOx(addr);
    assert Stripped(out) == RemoveOx("0x" + addr);
    assert ("0x" + addr)[2..] == addr;
    assert Stripped(out) == addr;
  }

  /** Without that condition it is not: `00xx` strips to `0x`, whose encoding
      `0x0x` (up to case) strips to the empty address. */
  lemma ChecksumNotIdempotent(keccak: Keccak)
    ensures Checksum("00xx", keccak).Ok?
    ensures var out := Checksum("00xx", keccak).value;
      (forall c <- out :: IsAscii(c)) && Checksum(out, keccak) != Checksum("00xx", keccak)
  {
    assert Lower("00xx") == "00xx";
    assert RemoveOx("00xx") == "0x";
    var out := Checksum("00xx", keccak).value;
    assert |out| == 4 && out[0] == '0' && out[1] == 'x' && out[2] == '0';
    assert out[3] == 'x' || out[3] == 'X';
    assert Lower(out) == "0x0x";
    assert RemoveOx("0x0x") == "";
  }

  // ---------------------------------------------------------------------------
  // create_eth_address
  // ---------------------------------------------------------------------------

  /** A generated account, as `create_eth_address` returns it. */
  datatype Account = Account(privateKey: string, publicKey: string, address: string)

  /** `create_eth_address`, given the generated key pair (`priv.to_string()`
      and `get_verifying_key().to_string()`): the address is the checksum
      encoding of the last 40 hex digits of the digest of the public key. */
  method CreateEthAddress(priv: seq<Byte>, pub: seq<Byte>, keccak: Keccak) returns (a: Account)
    ensures a.privateKey == BytesHex(priv) && a.publicKey == BytesHex(pub)
    ensures var tail := HexDigest(keccak(pub))[24..];
      && |tail| == 40 && Checksum(tail, keccak) == Ok(a.address)
      && |a.address| == 42 && Lower(a.address) == "0x" + tail
  {
    var address := HexDigest(keccak(pub))[24..];
    HexTailIsAscii(keccak(pub));
    var encoded := ChecksumEncode(address, keccak);
    HexTailStripped(keccak(pub));
    ChecksumLowered(address, keccak);
    return Account(BytesHex(priv), BytesHex(pub), encoded.value);
  }

  lemma HexTailIsAscii(d: Digest)
    ensures forall c <- HexDigest(d)[24..] :: IsAscii(c)
  {
    var t := HexDigest(d)[24..];
    forall c | c in t ensures IsAscii(c) {
      var i :| 0 <= i < |t| && t[i] == c;
      assert t[i] == HexChar(d[i + 24]);
    }
  }

  /** Hex digits are already stripped: lower-case, with no `x`. */
  lemma HexTailStripped(d: Digest)
    ensures Stripped(HexDigest(d)[24..]) == HexDigest(d)[24..]
  {
    var t := HexDigest(d)[24..];
    assert forall i :: 0 <= i < |t| ==> t[i] == HexChar(d[i + 24]);
    assert Lower(t) == t;
    RemoveOxNoOx(t);
  }

  // ---------------------------------------------------------------------------
  // get_genesis_content
  // ---------------------------------------------------------------------------

  /** The fork schedule of the private chain; `ethash` is an empty object. */
  datatype ChainConfig = ChainConfig(chainId: nat, homesteadBlock: nat, eip150Block: nat, eip155Block: nat,
                                     eip158Block: nat, byzantiumBlock: nat, constantinopleBlock: nat,
                                     petersburgBlock: nat)

  datatype AllocEntry = AllocEntry(balance: string)

  /** The genesis document, before `json.dumps`. */
  datatype Genesis = Genesis(config: ChainConfig, difficulty: string, gasLimit: string,
                             alloc: map<string, AllocEntry>)

  /** Chain 15 with every fork active from block 0. */
  const PrivateChain: ChainConfig := ChainConfig(15, 0, 0, 0, 0, 0, 0, 0)

  /** The balance every funded account starts with. */
  const InitialBalance: string := "0x" + BalanceDigits
  const BalanceDigits: string := "D3C2" + "1BCE" + "CCED" + "A100" + "0000"

  /** One ether in wei. */
  const Ether: nat := 1_000_000_000_000_000_000

  /** The funded accounts: one alloc entry per address, a later account with
      the same address overwriting an earlier one. */
  function Alloc(accounts: seq<Account>): (m: map<string, AllocEntry>)
    ensures m.Keys == set k | 0 <= k < |accounts| :: accounts[k].address
    ensures forall a <- m.Keys :: m[a] == AllocEntry(InitialBalance)
  {
    if accounts == [] then map[]
    else
      var n := |accounts| - 1;
      var m := Alloc(accounts[..n]);
      assert (set k | 0 <= k < |accounts| :: accounts[k].address)
          == (set k | 0 <= k < n :: accounts[..n][k].address) + {accounts[n].address};
      m[accounts[n].address := AllocEntry(InitialBalance)]
  }

  /** `accounts[1:]`: empty for an empty list. */
  function Funded(accounts: seq<Account>): seq<Account> {
    if accounts == [] then [] else accounts[1..]
  }

  /** `get_genesis_content`, proved against `Alloc`. */
  method GenesisContent(accounts: seq<Account>) returns (g: Genesis)
    ensures g.config == PrivateChain && g.difficulty == "1" && g.gasLimit == "8000000"
    ensures g.alloc == Alloc(Funded(accounts))
  {
    var alloc: map<string, AllocEntry> := map[];
    var rest := Funded(accounts);
    for k := 0 to |rest|
      invariant alloc == Alloc(rest[..k])
    {
      assert rest[..k + 1][..k] == rest[..k];
      alloc := alloc[rest[k].address := AllocEntry(InitialBalance)];
    }
    assert rest[..|rest|] == rest;
    return Genesis(PrivateChain, "1", "8000000", alloc);
  }

  /** The alloc keys are exactly the addresses of all accounts but the
      first, and each is funded with the initial balance. */
  lemma GenesisFundsAllButFirst(accounts: seq<Account>, a: string)
    ensures a in Alloc(Funded(accounts)) <==> exists k :: 1 <= k < |accounts| && accounts[k].address == a
    ensures a in Alloc(Funded(accounts)) ==> Alloc(Funded(accounts))[a].balance == InitialBalance
  {
    if accounts != [] {
      var f := accounts[1..];
      if a in Alloc(f) {
        var k :| 0 <= k < |f| && f[k].address == a;
        assert accounts[k + 1].address == a;
      }
      if exists k :: 1 <= k < |accounts| && accounts[k].address == a {
        var k :| 1 <= k < |accounts| && accounts[k].address == a;
        assert f[k - 1].address == a;
      }
    }
  }

  /** The coinbase `accounts[0]` is not funded unless a later account shares
      its address. */
  lemma CoinbaseNotFunded(accounts: seq<Account>)
    requires accounts != [] && forall k :: 1 <= k < |accounts| ==> accounts[k].address != accounts[0].address
    ensures accounts[0].address !in Alloc(Funded(accounts))
  {
    GenesisFundsAllButFirst(accounts, accounts[0].address);
  }

  /** The initial balance is one million ether: 10^24 wei. */
  lemma InitialBalanceIsMillionEther()
    ensures forall c <- BalanceDigits :: IsHexChar(c)
    ensures HexNumber(BalanceDigits) == 1_000_000 * Ether
  {
    var c1, c2, c3, c4, c5 := "D3C2", "1BCE", "CCED", "A100", "0000";
    HexQuad([], 'D', '3', 'C', '2');
    assert [] + c1 == c1;
    HexQuad(c1, '1', 'B', 'C', 'E');
    HexQuad(c1 + c2, 'C', 'C', 'E', 'D');
    HexQuad(c1 + c2 + c3, 'A', '1', '0', '0');
    HexQuad(c1 + c2 + c3 + c4, '0', '0', '0', '0');
  }

  /** Four more hex digits, most significant first. */
  lemma HexQuad(a: string, w: char, x: char, y: char, z: char)
    requires IsHexChar(w) && IsHexChar(x) && IsHexChar(y) && IsHexChar(z) && forall c <- a :: IsHexChar(c)
    ensures forall c <- a + [w, x, y, z] :: IsHexChar(c)
    ensures HexNumber(a + [w, x, y, z])
         == HexNumber(a) * 65536 + ((HexValue(w) * 16 + HexValue(x)) * 16 + HexValue(y)) * 16 + HexValue(z)
  {
    var a1 := a + [w];
    var a2 := a1 + [x];
    var a3 := a2 + [y];
    var a4 := a3 + [z];
    assert a + [w, x, y, z] == a4;
    HexNumberStep(a, w);
    HexNumberStep(a1, x);
    HexNumberStep(a2, y);
    HexNumberStep(a3, z);
    var h, vw, vx, vy, vz := HexNumber(a), HexValue(w), HexValue(x), HexValue(y), HexValue(z);
    assert HexNumber(a4) == (((h * 16 + vw) * 16 + vx) * 16 + vy) * 16 + vz;
  }

  lemma HexNumberStep(t: string, c: char)
    requires IsHexChar(c) && forall x <- t :: IsHexChar(x)
    ensures forall x <- t + [c] :: IsHexChar(x)
    ensures HexNumber(t + [c]) == HexNumber(t) * 16 + HexValue(c)
  {
    assert (t + [c])[..|t|] == t;
  }
}
