/**
 * The networks the tool can run against, with the per-network constants the
 * option resolution reads: the node's default RPC port, the sub-directory a
 * network's files live in, and the names under which a network is shown, given
 * on the command line and reported by the node.
 */
module Chains {

  import opened Wrappers

  datatype Chain = Mainnet | Testnet | Signet | Regtest

  /** `Chain::default_rpc_port`. */
  function DefaultRpcPort(c: Chain): nat {
    match c
    case Mainnet => 22555
    case Testnet => 44555
    case Signet => 38332
    case Regtest => 18332
  }

  /** The path components `Chain::join_with_data_dir` appends to a base directory. */
  function DataDirSegment(c: Chain): (seg: seq<string>)
    ensures c == Mainnet <==> seg == []
    ensures |seg| <= 1
  {
    match c
    case Mainnet => []
    case Testnet => ["testnet3"]
    case Signet => ["signet"]
    case Regtest => ["regtest"]
  }

  /** `Chain::join_with_data_dir`: the network's directory under `base`. */
  function JoinWithDataDir(c: Chain, base: seq<string>): (dir: seq<string>)
    ensures |base| <= |dir| <= |base| + 1 && dir[..|base|] == base
  {
    base + DataDirSegment(c)
  }

  /** Distinct networks keep their files in distinct directories under the same base. */
  lemma JoinWithDataDirInjective(c1: Chain, c2: Chain, base: seq<string>)
    ensures JoinWithDataDir(c1, base) == JoinWithDataDir(c2, base) <==> c1 == c2
  {
  }

  /** The `Display` name of a network, used in error messages. */
  function DisplayName(c: Chain): string {
    match c
    case Mainnet => "mainnet"
    case Testnet => "testnet"
    case Signet => "signet"
    case Regtest => "regtest"
  }

  /** The value of `--chain`, accepting the long and the short alias of each network. */
  function FromArgument(arg: string): (r: Option<Chain>)
    ensures r.Some? ==> arg == DisplayName(r.value) || arg == RpcName(r.value)
  {
    if arg == "main" || arg == "mainnet" then Some(Mainnet)
    else if arg == "test" || arg == "testnet" then Some(Testnet)
    else if arg == "signet" then Some(Signet)
    else if arg == "regtest" then Some(Regtest)
    else None
  }

  /** Every network is accepted under its display name and under its node name. */
  lemma FromArgumentAcceptsNames(c: Chain)
    ensures FromArgument(DisplayName(c)) == Some(c)
    ensures FromArgument(RpcName(c)) == Some(c)
  {
  }

  /** The chain name a node reports in `getblockchaininfo`. */
  function RpcName(c: Chain): string {
    match c
    case Mainnet => "main"
    case Testnet => "test"
    case Signet => "signet"
    case Regtest => "regtest"
  }
}
