/**
 * Properties of the option resolution that relate several calls or hold for
 * every input: which inputs each resolved value depends on, when resolution
 * can fail, and that the formats the source produces can be read back.
 */
module ResolutionProperties {

  import opened Wrappers
  import opened Decimal
  import opened Chains
  import opened Configuration
  import opened Descriptors

  // Network selection

  /** Only the network flags decide the network: every other option can change without effect. */
  lemma SelectedChainDependsOnlyOnFlags(o: Options, o': Options)
    requires o.signet == o'.signet && o.regtest == o'.regtest && o.testnet == o'.testnet
    requires o.chainArgument == o'.chainArgument
    ensures o.SelectedChain() == o'.SelectedChain()
  {
  }

  /** With well-formed flags, a network is active exactly when it was asked for. */
  lemma SelectedChainIffRequested(o: Options, c: Chain)
    requires o.ChainFlagsExclusive()
    ensures o.SelectedChain() == c <==> o.Requests(c)
  {
  }

  // Endpoint

  /** An explicit endpoint is used as given, whatever the network and wallet. */
  lemma RpcUrlOverrideIgnoresNetwork(o: Options, chain: Chain, signet: bool, regtest: bool, testnet: bool, wallet: string)
    requires o.rpcUrl.Some?
    ensures o.(chainArgument := chain, signet := signet, regtest := regtest, testnet := testnet, wallet := wallet).RpcUrl()
            == o.rpcUrl.value
  {
  }

  /** Without an explicit endpoint, the URL tells the wallet and the network's port apart. */
  lemma DefaultRpcUrlDistinguishes(o: Options, o': Options)
    requires o.rpcUrl.None? && o'.rpcUrl.None?
    ensures o.RpcUrl() == o'.RpcUrl() <==>
      o.wallet == o'.wallet && DefaultRpcPort(o.SelectedChain()) == DefaultRpcPort(o'.SelectedChain())
  {
    DefaultRpcUrlInjective(DefaultRpcPort(o.SelectedChain()), o.wallet, DefaultRpcPort(o'.SelectedChain()), o'.wallet);
  }

  // Cookie file

  /** The base directory the cookie file is looked for in, when no cookie file is given. */
  function CookieBase(o: Options, p: Platform): Option<Path> {
    if o.dogecoinDataDir.Some? then o.dogecoinDataDir
    else if p.isLinux then (if p.homeDir.Some? then Some(p.homeDir.value + [".dogecoin"]) else None)
    else if p.dataDir.Some? then Some(p.dataDir.value + ["Dogecoin"]) else None
  }

  /** Resolving the cookie file fails only when no override is given and the needed platform directory is missing. */
  lemma CookieFileFailsOnlyWithoutDirectory(o: Options, p: Platform)
    ensures o.CookieFile(p).Err? <==>
      o.cookieFile.None? && o.dogecoinDataDir.None? && (if p.isLinux then p.homeDir.None? else p.dataDir.None?)
    ensures o.CookieFile(p).Err? ==>
      o.CookieFile(p).error == (if p.isLinux then HomeDirUnavailable else DataDirUnavailable)
  {
  }

  /**
   * Without an override, the cookie file is `.cookie` in the network's
   * directory under the base: nothing under the base for mainnet, one
   * sub-directory for the other networks.
   */
  lemma CookieFileLayout(o: Options, p: Platform)
    requires o.cookieFile.None? && o.CookieFile(p).Ok?
    ensures CookieBase(o, p).Some?
    ensures EndsWith(o.CookieFile(p).value, DataDirSegment(o.SelectedChain()) + [COOKIE_FILE_NAME])
    ensures o.CookieFile(p).value == CookieBase(o, p).value + DataDirSegment(o.SelectedChain()) + [COOKIE_FILE_NAME]
  {
  }

  /** An explicit cookie file is used as given, whatever the network, the node data dir and the platform. */
  lemma CookieFileOverrideWins(o: Options, p: Platform, chain: Chain, signet: bool, regtest: bool, testnet: bool, dogecoinDataDir: Option<Path>, p': Platform)
    requires o.cookieFile.Some?
    ensures o.(chainArgument := chain, signet := signet, regtest := regtest, testnet := testnet, dogecoinDataDir := dogecoinDataDir).CookieFile(p')
            == o.CookieFile(p)
  {
  }

  /** Paths are displayed with `/` between components, and a root component is not doubled. */
  lemma CookiePathDisplay()
    ensures PathDisplay(["/", "foo", "bar"]) == "/foo/bar"
    ensures PathDisplay(["foo", "signet", ".cookie"]) == "foo/signet/.cookie"
  {
    assert ["/", "foo", "bar"][..2][..1] == ["/"];
    assert ["foo", "signet", ".cookie"][..2][..1] == ["foo"];
  }

  /** Under one base, the networks' cookie files are all different files. */
  lemma CookieFilesOfNetworksDiffer(o: Options, o': Options, p: Platform)
    requires o.cookieFile.None? && o'.cookieFile.None? && o.dogecoinDataDir == o'.dogecoinDataDir
    requires o.CookieFile(p).Ok? && o'.CookieFile(p).Ok?
    ensures o.CookieFile(p) == o'.CookieFile(p) <==> o.SelectedChain() == o'.SelectedChain()
  {
    var base := CookieBase(o, p).value;
    var c, c' := o.SelectedChain(), o'.SelectedChain();
    var path, path' := o.CookieFile(p).value, o'.CookieFile(p).value;
    if path == path' {
      assert JoinWithDataDir(c, base) == path[..|path| - 1];
      assert JoinWithDataDir(c', base) == path'[..|path'| - 1];
      JoinWithDataDirInjective(c, c', base);
    }
  }

  // Data directory

  /** Resolving the data directory fails only when no override is given and the platform has no data directory. */
  lemma DataDirFailsOnlyWithoutDirectory(o: Options, p: Platform)
    ensures o.DataDir(p).Err? <==> o.dataDir.None? && p.dataDir.None?
    ensures o.DataDir(p).Err? ==> o.DataDir(p).error == DataDirUnavailable
  {
  }

  /**
   * The data directory is the network's directory under the base: the
   * explicit `--data-dir`, else the platform data directory's `ord`.
   */
  lemma DataDirLayout(o: Options, p: Platform)
    requires o.DataDir(p).Ok?
    ensures var base := if o.dataDir.Some? then o.dataDir.value else p.dataDir.value + ["ord"];
      o.DataDir(p).value == base + DataDirSegment(o.SelectedChain())
      && EndsWith(o.DataDir(p).value, DataDirSegment(o.SelectedChain()))
  {
  }

  /** An explicit data directory and the platform default get the network segment in the same way. */
  lemma DataDirOverrideJoinedLikeDefault(o: Options, p: Platform)
    requires o.dataDir.None? && p.dataDir.Some?
    ensures o.(dataDir := Some(p.dataDir.value + ["ord"])).DataDir(p) == o.DataDir(p)
    ensures o.(dataDir := Some(p.dataDir.value + ["ord"])).DataDir(Platform(p.isLinux, p.homeDir, None)) == o.DataDir(p)
  {
  }

  /** Under one base, the networks' data directories are all different. */
  lemma DataDirsOfNetworksDiffer(o: Options, o': Options, p: Platform)
    requires o.dataDir == o'.dataDir && o.DataDir(p).Ok?
    ensures o.DataDir(p) == o'.DataDir(p) <==> o.SelectedChain() == o'.SelectedChain()
  {
  }

  // Configuration document

  /** The loaded configuration is the default when no document is read, and otherwise that document's. */
  lemma LoadConfigReadsSource(o: Options, pathExists: Path -> bool, read: Path -> Result<Config, string>)
    ensures o.ConfigSource(pathExists).None? ==> o.LoadConfig(pathExists, read) == Ok(DefaultConfig())
    ensures o.ConfigSource(pathExists).Some? ==> o.LoadConfig(pathExists, read) == ReadConfig(read, o.ConfigSource(pathExists).value)
  {
  }

  /**
   * At most one document is read: two file systems that agree on the document
   * `ConfigSource` names load the same configuration, whatever else they hold.
   */
  lemma LoadConfigReadsOneDocument(o: Options, pathExists: Path -> bool, read: Path -> Result<Config, string>, read': Path -> Result<Config, string>)
    requires o.ConfigSource(pathExists).Some? ==> read(o.ConfigSource(pathExists).value) == read'(o.ConfigSource(pathExists).value)
    ensures o.LoadConfig(pathExists, read) == o.LoadConfig(pathExists, read')
  {
  }

  /** Loading fails only when a document was chosen and reading it failed; a missing document is not an error. */
  lemma LoadConfigFailsOnlyOnChosenDocument(o: Options, pathExists: Path -> bool, read: Path -> Result<Config, string>)
    ensures o.LoadConfig(pathExists, read).Err? <==>
      o.ConfigSource(pathExists).Some? && read(o.ConfigSource(pathExists).value).Err?
  {
  }

  /** An explicit `--config` is the only source: the configuration directory is then never consulted. */
  lemma ExplicitConfigIgnoresDirectory(o: Options, pathExists: Path -> bool, pathExists': Path -> bool, read: Path -> Result<Config, string>, configDir: Option<Path>)
    requires o.config.Some?
    ensures o.(configDir := configDir).LoadConfig(pathExists', read) == o.LoadConfig(pathExists, read)
  {
  }

  // Node connection

  /** The chain names a node reports and the networks correspond one to one. */
  lemma RemoteChainInverse(reported: string, c: Chain)
    ensures RemoteChain(reported) == Ok(c) <==> reported == RpcName(c)
  {
  }

  /** A connection is handed out only for a node on the active network, however the flags were combined. */
  lemma RpcClientOnActiveNetwork(o: Options, p: Platform, node: Node)
    requires o.DogecoinRpcClient(p, node).Ok?
    ensures RemoteChain(node.chain.value) == Ok(o.SelectedChain())
    ensures o.DogecoinRpcClient(p, node).value.chain == o.SelectedChain()
  {
  }

  /** A node on another known network is refused with an error naming the node's network, then the local one. */
  lemma RpcClientRefusesOtherNetwork(o: Options, p: Platform, node: Node, remote: Chain)
    requires o.CookieFile(p).Ok? && node.connectError.None?
    requires node.chain == Ok(RpcName(remote)) && remote != o.SelectedChain()
    ensures o.DogecoinRpcClient(p, node) == Err(ChainMismatch(remote, o.SelectedChain()))
    ensures o.DogecoinRpcClient(p, node).error.Message() ==
      "Dogecoin RPC server is on " + DisplayName(remote) + " but ord is on " + DisplayName(o.SelectedChain())
  {
  }

  // Version gate

  /** Different versions are shown differently: a refused node's version string identifies it. */
  lemma FormatVersionInjective(v1: usize, v2: usize)
    ensures FormatVersion(v1) == FormatVersion(v2) <==> v1 == v2
  {
  }

  /** The minimum version reads `1.14.6.0`. */
  lemma MinVersionFormat()
    ensures FormatVersion(MIN_VERSION) == "1.14.6.0"
  {
    assert VersionFields(MIN_VERSION) == (1, 14, 6, 0);
    assert NatToString(14) == "14";
  }

  /**
   * A node older than the minimum is refused before any wallet is listed,
   * loaded or inspected, with both versions in the message.
   */
  lemma OldNodeRefusedBeforeWalletLogic(o: Options, p: Platform, node: Node, create: bool, wallets: Result<seq<string>, string>, loadWalletError: Option<string>, descriptors: Result<seq<string>, string>)
    requires o.DogecoinRpcClient(p, node).Ok? && node.version.Ok? && node.version.value < MIN_VERSION
    ensures var node' := node.(wallets := wallets, loadWalletError := loadWalletError, descriptors := descriptors);
      o.DogecoinRpcClientForWalletCommand(p, node', create) == Err(VersionTooOld("1.14.6.0", FormatVersion(node.version.value)))
  {
    MinVersionFormat();
    var node' := node.(wallets := wallets, loadWalletError := loadWalletError, descriptors := descriptors);
    assert o.DogecoinRpcClient(p, node') == o.DogecoinRpcClient(p, node);
  }

  // Wallet descriptors

  /** Wallet creation skips the descriptor check: a creating command never looks at the wallet. */
  lemma CreateIgnoresWallet(o: Options, p: Platform, node: Node, wallets: Result<seq<string>, string>, loadWalletError: Option<string>, descriptors: Result<seq<string>, string>)
    ensures o.DogecoinRpcClientForWalletCommand(p, node.(wallets := wallets, loadWalletError := loadWalletError, descriptors := descriptors), true)
            == o.DogecoinRpcClientForWalletCommand(p, node, true)
  {
  }

  /**
   * On a current node, a wallet that is loaded or loads without error is
   * accepted exactly when it has the descriptors of a wallet this tool
   * created, and refused by name otherwise.
   */
  lemma OrdWalletAccepted(o: Options, p: Platform, node: Node)
    requires o.DogecoinRpcClient(p, node).Ok? && node.version.Ok? && node.version.value >= MIN_VERSION
    requires node.wallets.Ok? && (o.wallet in node.wallets.value || node.loadWalletError.None?)
    requires node.descriptors.Ok?
    ensures IsOrdWallet(node.descriptors.value) ==>
      o.DogecoinRpcClientForWalletCommand(p, node, false) == o.DogecoinRpcClient(p, node)
    ensures !IsOrdWallet(node.descriptors.value) ==>
      o.DogecoinRpcClientForWalletCommand(p, node, false) == Err(UnexpectedDescriptors(o.wallet))
  {
  }

  /** A wallet holding anything besides two `tr(` descriptors and `rawtr(` ones is refused. */
  lemma ForeignDescriptorRefused(o: Options, p: Platform, node: Node, i: int)
    requires o.DogecoinRpcClient(p, node).Ok? && node.version.Ok? && node.version.value >= MIN_VERSION
    requires node.wallets.Ok? && (o.wallet in node.wallets.value || node.loadWalletError.None?)
    requires node.descriptors.Ok? && 0 <= i < |node.descriptors.value|
    requires !StartsWith(node.descriptors.value[i], "tr(") && !StartsWith(node.descriptors.value[i], "rawtr(")
    ensures o.DogecoinRpcClientForWalletCommand(p, node, false) == Err(UnexpectedDescriptors(o.wallet))
  {
  }
}
