/**
 * The unit tests of src/options.rs, each stated for every platform and file
 * system the test could run on rather than for the one it happens to run on.
 */
module OptionsTests {

  import opened Wrappers
  import opened Decimal
  import opened Chains
  import opened Configuration

  /** The options of `ord --chain=<c> index`. */
  function OnChain(c: Chain): (o: Options)
    ensures o.SelectedChain() == c && o.ChainFlagsExclusive()
  {
    DefaultOptions().(chainArgument := c)
  }

  lemma PortDigits()
    ensures NatToString(22555) == "22555" && NatToString(38332) == "38332"
  {
    assert NatToString(2) == "2" && NatToString(3) == "3";
    assert NatToString(22) == "22" && NatToString(38) == "38";
    assert NatToString(225) == "225" && NatToString(383) == "383";
    assert NatToString(2255) == "2255" && NatToString(3833) == "3833";
  }

  lemma RpcUrlOverridesNetwork()
    ensures OnChain(Signet).(rpcUrl := Some("127.0.0.1:1234")).RpcUrl() == "127.0.0.1:1234"
  {
  }

  lemma CookieFileOverridesNetwork(p: Platform)
    ensures OnChain(Signet).(cookieFile := Some(["/", "foo", "bar"])).CookieFile(p) == Ok(["/", "foo", "bar"])
  {
  }

  lemma UseDefaultNetwork(p: Platform)
    ensures DefaultOptions().RpcUrl() == "127.0.0.1:22555/wallet/ord"
    ensures DefaultOptions().CookieFile(p).Ok? ==> EndsWith(DefaultOptions().CookieFile(p).value, [".cookie"])
  {
    PortDigits();
  }

  lemma UsesNetworkDefaults(p: Platform)
    ensures OnChain(Signet).RpcUrl() == "127.0.0.1:38332/wallet/ord"
    ensures OnChain(Signet).CookieFile(p).Ok? ==> EndsWith(OnChain(Signet).CookieFile(p).value, ["signet", ".cookie"])
  {
    PortDigits();
  }

  lemma MainnetCookieFilePath(p: Platform)
    requires DefaultOptions().CookieFile(p).Ok?
    ensures EndsWith(DefaultOptions().CookieFile(p).value, if p.isLinux then [".dogecoin", ".cookie"] else ["Dogecoin", ".cookie"])
  {
  }

  lemma OthernetCookieFilePath(p: Platform)
    requires OnChain(Signet).CookieFile(p).Ok?
    ensures EndsWith(OnChain(Signet).CookieFile(p).value,
                     if p.isLinux then [".dogecoin", "signet", ".cookie"] else ["Dogecoin", "signet", ".cookie"])
  {
  }

  lemma CookieFileDefaultsToDogecoinDataDir(p: Platform)
    ensures OnChain(Signet).(dogecoinDataDir := Some(["foo"])).CookieFile(p) == Ok(["foo", "signet", ".cookie"])
  {
    assert ["foo"] + ["signet"] + [".cookie"] == ["foo", "signet", ".cookie"];
  }

  lemma MainnetDataDir(p: Platform)
    requires DefaultOptions().DataDir(p).Ok?
    ensures EndsWith(DefaultOptions().DataDir(p).value, ["ord"])
  {
  }

  lemma OthernetDataDir(p: Platform)
    requires OnChain(Signet).DataDir(p).Ok?
    ensures EndsWith(OnChain(Signet).DataDir(p).value, ["ord", "signet"])
  {
  }

  lemma NetworkIsJoinedWithDataDir(p: Platform)
    ensures OnChain(Signet).(dataDir := Some(["foo"])).DataDir(p) == Ok(["foo", "signet"])
  {
    assert ["foo"] + ["signet"] == ["foo", "signet"];
  }

  /** Each `--chain` alias selects its network, whose data directory ends as the test expects. */
  lemma NetworkAcceptsAliases(p: Platform, alias: string)
    requires FromArgument(alias).Some?
    requires OnChain(FromArgument(alias).value).DataDir(p).Ok?
    ensures var dir := OnChain(FromArgument(alias).value).DataDir(p).value;
      match alias
      case "main" => EndsWith(dir, ["ord"])
      case "mainnet" => EndsWith(dir, ["ord"])
      case "regtest" => EndsWith(dir, ["ord", "regtest"])
      case "signet" => EndsWith(dir, ["ord", "signet"])
      case "test" => EndsWith(dir, ["ord", "testnet3"])
      case "testnet" => EndsWith(dir, ["ord", "testnet3"])
      case _ => false
  {
  }

  /** A node on testnet is refused for a mainnet client, with the message the test expects. */
  lemma RpcServerChainMustMatch(p: Platform, cookie: Path, url: string, node: Node)
    requires node.connectError.None? && node.chain == Ok("test")
    ensures var o := DefaultOptions().(cookieFile := Some(cookie), rpcUrl := Some(url));
      o.DogecoinRpcClient(p, node).Err?
      && o.DogecoinRpcClient(p, node).error.Message() == "Dogecoin RPC server is on testnet but ord is on mainnet"
  {
  }

  /** A shortcut alone selects its network; a shortcut beside `--chain signet` is a usage error. */
  lemma ChainFlags()
    ensures DefaultOptions().(signet := true).SelectedChain() == Signet
    ensures DefaultOptions().(regtest := true).SelectedChain() == Regtest
    ensures DefaultOptions().(testnet := true).SelectedChain() == Testnet
    ensures !OnChain(Signet).(signet := true).ChainFlagsExclusive()
    ensures !OnChain(Signet).(regtest := true).ChainFlagsExclusive()
    ensures !OnChain(Signet).(testnet := true).ChainFlagsExclusive()
  {
  }

  /** Without `--wallet` the wallet is `ord`; a wallet named on the command line is the one the endpoint names. */
  lemma WalletFlagOverridesDefaultName()
    ensures DefaultOptions().wallet == "ord"
    ensures DefaultOptions().(wallet := "foo").wallet == "foo"
    ensures DefaultOptions().(wallet := "foo").RpcUrl() == "127.0.0.1:22555/wallet/foo"
  {
    PortDigits();
  }

  lemma DefaultConfigIsReturnedIfConfigOptionIsNotPassed(pathExists: Path -> bool, read: Path -> Result<Config, string>)
    ensures DefaultOptions().LoadConfig(pathExists, read) == Ok(DefaultConfig())
  {
  }

  /** A document hiding one inscription is loaded the same through `--config` and through `--config-dir`. */
  lemma ConfigIsLoadedFromConfigOptionAndDirPath(dir: Path, id: InscriptionId, pathExists: Path -> bool, read: Path -> Result<Config, string>)
    requires pathExists(dir + ["ord.yaml"]) && read(dir + ["ord.yaml"]) == Ok(Config({id}))
    ensures DefaultOptions().(config := Some(dir + ["ord.yaml"])).LoadConfig(pathExists, read) == Ok(Config({id}))
    ensures DefaultOptions().(configDir := Some(dir)).LoadConfig(pathExists, read) == Ok(Config({id}))
  {
  }
}
