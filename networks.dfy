/**
 * The table of supported chains, the support test the guards use, and the
 * label shown for a chain id. `getNetworkName` repeats the table as a switch
 * with a different fallback text.
 */
module Networks {
  import opened Decimal

  /** `SUPPORTED_NETWORKS`: chain id to display label. */
  const SupportedNetworks: map<int, string> := map[
    1 := "Ethereum Mainnet",
    3 := "Ropsten Testnet",
    4 := "Rinkeby Testnet",
    5 := "Goerli Testnet",
    11155111 := "Sepolia Testnet",
    31337 := "Hardhat Local Network",
    1337 := "Ganache Local Network"
  ]

  /** `Object.keys(SUPPORTED_NETWORKS)`: JavaScript stores the numeric keys as their decimal strings. */
  function ObjectKeys(): set<string>
  {
    set k | k in SupportedNetworks :: IntToString(k)
  }

  const UnknownPrefix: string := "Unknown Network (ID: "

  const SwitchFallbackPrefix: string := "Неизвестная сеть (ID: "

  /** The support test as written: the chain id's text is one of the table's key strings. */
  predicate KeysInclude(chainId: int)
  {
    IntToString(chainId) in ObjectKeys()
  }

  /**
   * The keys of `SUPPORTED_NETWORKS` again, as a set of integers: membership
   * in this set is cheap to decide, whereas membership in the map with its
   * string values makes the guard proofs slow. `TableKeys` proves the two agree.
   */
  const SupportedChainIds: set<int> := {1, 3, 4, 5, 11155111, 31337, 1337}

  /** Membership in the table, which the test above decides (`SupportedIffTableKey`). */
  predicate IsSupported(chainId: int)
  {
    chainId in SupportedChainIds
  }

  lemma TableKeys()
    ensures SupportedNetworks.Keys == SupportedChainIds
  {
  }

  /** The table label, or a synthesised "Unknown Network (ID: n)"; no table label is empty, so the fallback is taken only for a missing key. */
  function NetworkLabel(chainId: int): string
  {
    if chainId in SupportedNetworks then SupportedNetworks[chainId]
    else UnknownPrefix + IntToString(chainId) + ")"
  }

  /** `getNetworkName`: the seven cases of the switch and its default. */
  function GetNetworkName(chainId: int): string
  {
    match chainId
    case 1 => "Ethereum Mainnet"
    case 3 => "Ropsten Testnet"
    case 4 => "Rinkeby Testnet"
    case 5 => "Goerli Testnet"
    case 11155111 => "Sepolia Testnet"
    case 31337 => "Hardhat Local Network"
    case 1337 => "Ganache Local Network"
    case _ => SwitchFallbackPrefix + IntToString(chainId) + ")"
  }

  /** The string-key test accepts exactly the chain ids that are keys of the table. */
  lemma SupportedIffTableKey(chainId: int)
    ensures KeysInclude(chainId) <==> IsSupported(chainId)
  {
    if KeysInclude(chainId) {
      var k :| k in SupportedNetworks && IntToString(k) == IntToString(chainId);
      IntToStringInjective(k, chainId);
    }
  }

  predicate StartsWith(s: string, prefix: string)
  {
    |prefix| <= |s| && s[..|prefix|] == prefix
  }

  /** Only a chain outside the table gets the synthesised "Unknown Network" label. */
  lemma LabelOfUnknownChain(chainId: int)
    ensures StartsWith(NetworkLabel(chainId), UnknownPrefix) <==> chainId !in SupportedNetworks
  {
    if chainId in SupportedNetworks {
      assert NetworkLabel(chainId)[0] != UnknownPrefix[0];
    }
  }

  /** Different chain ids never share a label, so the label identifies the chain. */
  lemma NetworkLabelInjective(a: int, b: int)
    ensures NetworkLabel(a) == NetworkLabel(b) ==> a == b
  {
    if NetworkLabel(a) == NetworkLabel(b) {
      LabelOfUnknownChain(a);
      LabelOfUnknownChain(b);
      if a !in SupportedNetworks && b !in SupportedNetworks {
        var la, lb := NetworkLabel(a), NetworkLabel(b);
        assert la[|UnknownPrefix|..|la| - 1] == IntToString(a);
        assert lb[|UnknownPrefix|..|lb| - 1] == IntToString(b);
        IntToStringInjective(a, b);
      }
    }
  }

  /** The switch and the table give the same label exactly on the seven supported ids. */
  lemma NetworkNameAgreesExactlyOnSupported(chainId: int)
    ensures GetNetworkName(chainId) == NetworkLabel(chainId) <==> chainId in SupportedNetworks
  {
    if chainId !in SupportedNetworks {
      assert GetNetworkName(chainId)[0] != NetworkLabel(chainId)[0];
    }
  }
}
