/**
 * Resolution of the tool's runtime configuration from its parsed command-line
 * options (`Options` in src/options.rs): which network is active, where the
 * node's RPC cookie and the index's data live, which configuration document is
 * honoured, and the checks a freshly opened node connection must pass before a
 * command may use it.
 *
 * Everything the source asks of the outside world is a parameter here: the
 * platform's directories (`Platform`), the file system's answers about the
 * configuration document (`pathExists`, `read`), and the node's answers to the
 * RPC calls the source issues (`Node`).
 */
module Configuration {

  import opened Wrappers
  import opened Decimal
  import opened Chains
  import opened Descriptors

  /** A file-system path as its sequence of components; `join` appends one. */
  type Path = seq<string>

  const U64_LIMIT: int := 0x1_0000_0000_0000_0000

  /** Rust's `u64`, and `usize` on the 64-bit targets the tool is built for. */
  type u64 = x: int | 0 <= x < U64_LIMIT
  type usize = u64

  const DEFAULT_WALLET: string := "ord"
  const CONFIG_FILE_NAME: string := "ord.yaml"
  const COOKIE_FILE_NAME: string := ".cookie"

  /** The oldest node accepted for wallet commands: Dogecoin Core 1.14.6.0. */
  const MIN_VERSION: usize := 1140600

  /** `Path::ends_with`: `suffix` is a trailing run of whole components of `p`. */
  predicate EndsWith(p: Path, suffix: Path) {
    |suffix| <= |p| && p[|p| - |suffix|..] == suffix
  }

  /**
   * How a path is shown in messages: its components joined by `/`, with no
   * separator added after a leading root component `/`.
   */
  function PathDisplay(p: Path): string {
    if p == [] then ""
    else if |p| == 1 then p[0]
    else
      var head := PathDisplay(p[..|p| - 1]);
      (if head == "/" then head else head + "/") + p[|p| - 1]
  }

  type InscriptionId = string

  /** The configuration document: the inscriptions to hide. */
  datatype Config = Config(hidden: set<InscriptionId>)

  /** `Config::default()`: nothing hidden. */
  function DefaultConfig(): Config {
    Config({})
  }

  /** What `dirs` and `cfg!` report about the host. */
  datatype Platform = Platform(isLinux: bool, homeDir: Option<Path>, dataDir: Option<Path>)

  /**
   * The answers of the node behind the RPC endpoint, one per call the source
   * makes; an `Err` or a `Some` error is the transport's failure message.
   */
  datatype Node = Node(
    connectError: Option<string>,
    chain: Result<string, string>,
    version: Result<usize, string>,
    wallets: Result<seq<string>, string>,
    loadWalletError: Option<string>,
    descriptors: Result<seq<string>, string>)

  datatype RpcCall = GetBlockchainInfo | GetVersion | ListWallets | LoadWallet | ListDescriptors

  /** A connection to the node: where it points, the credentials it uses, the network it is on. */
  datatype Client = Client(url: string, cookieFile: Path, chain: Chain)

  datatype Error =
    | HomeDirUnavailable
    | DataDirUnavailable
    | CookieFilePath(cause: Error)
    | ConfigUnreadable(detail: string)
    | ConnectFailed(url: string, cookieFile: Path, detail: string)
    | RpcFailed(call: RpcCall, detail: string)
    | UnknownChain(reported: string)
    | ChainMismatch(remote: Chain, local: Chain)
    | VersionTooOld(required: string, current: string)
    | UnexpectedDescriptors(wallet: string)
  {
    /** The text the error is displayed with. */
    function Message(): string {
      match this
      case HomeDirUnavailable => "failed to retrieve home dir"
      case DataDirUnavailable => "failed to retrieve data dir"
      case CookieFilePath(cause) => "failed to get cookie file path: " + cause.Message()
      case ConfigUnreadable(detail) => detail
      case ConnectFailed(url, cookieFile, _) =>
        "failed to connect to Dogecoin Core RPC at " + url + " using cookie file " + PathDisplay(cookieFile)
      case RpcFailed(_, detail) => detail
      case UnknownChain(reported) => "Dogecoin RPC server on unknown chain: " + reported
      case ChainMismatch(remote, local) =>
        "Dogecoin RPC server is on " + DisplayName(remote) + " but ord is on " + DisplayName(local)
      case VersionTooOld(required, current) =>
        "Dogecoin Core " + required + " or newer required, current version is " + current
      case UnexpectedDescriptors(wallet) =>
        "wallet \"" + wallet + "\" contains unexpected output descriptors, and does not appear to be an `ord` wallet, create a new wallet with `ord wallet create`"
    }
  }

  /** The endpoint used when none is given: the local node's port for the network, and the wallet. */
  function DefaultRpcUrl(port: nat, wallet: string): string {
    "127.0.0.1:" + NatToString(port) + "/wallet/" + wallet
  }

  /** The default endpoint names its port and its wallet unambiguously. */
  lemma DefaultRpcUrlInjective(port1: nat, wallet1: string, port2: nat, wallet2: string)
    ensures DefaultRpcUrl(port1, wallet1) == DefaultRpcUrl(port2, wallet2) <==> port1 == port2 && wallet1 == wallet2
  {
    var host := "127.0.0.1:";
    var d1, d2 := NatToString(port1), NatToString(port2);
    var t1, t2 := "wallet/" + wallet1, "wallet/" + wallet2;
    assert DefaultRpcUrl(port1, wallet1) == host + (d1 + ['/'] + t1);
    assert DefaultRpcUrl(port2, wallet2) == host + (d2 + ['/'] + t2);
    if DefaultRpcUrl(port1, wallet1) == DefaultRpcUrl(port2, wallet2) {
      assert d1 + ['/'] + t1 == DefaultRpcUrl(port1, wallet1)[|host|..];
      assert d2 + ['/'] + t2 == DefaultRpcUrl(port2, wallet2)[|host|..];
      DigitsExclude(d1, '/');
      DigitsExclude(d2, '/');
      SplitAtSeparator(d1, t1, d2, t2, '/');
      NatToStringInjective(port1, port2);
      assert wallet1 == t1[7..] && wallet2 == t2[7..];
    }
  }

  /** The parsed command-line options. */
  datatype Options = Options(
    dogecoinDataDir: Option<Path>,
    chainArgument: Chain,
    config: Option<Path>,
    configDir: Option<Path>,
    cookieFile: Option<Path>,
    dataDir: Option<Path>,
    firstInscriptionHeight: Option<u64>,
    heightLimit: Option<u64>,
    index: Option<Path>,
    indexSats: bool,
    regtest: bool,
    rpcUrl: Option<string>,
    signet: bool,
    testnet: bool,
    wallet: string)
  {
    /** Whether the shortcut flag of network `c` is set (mainnet has none). */
    predicate Shortcut(c: Chain) {
      match c
      case Mainnet => false
      case Testnet => testnet
      case Signet => signet
      case Regtest => regtest
    }

    predicate NoShortcut() {
      !signet && !regtest && !testnet
    }

    /**
     * The argument group the parser enforces: at most one shortcut flag, and
     * no shortcut beside a `--chain` other than the default.
     */
    function ChainFlagsExclusive(): (ok: bool)
      ensures ok <==>
        (forall c, c' :: Requests(c) && Requests(c') ==> c == c') && (NoShortcut() || chainArgument == Mainnet)
    {
      assert signet && regtest ==> Requests(Signet) && Requests(Regtest);
      assert signet && testnet ==> Requests(Signet) && Requests(Testnet);
      assert regtest && testnet ==> Requests(Regtest) && Requests(Testnet);
      (signet ==> !regtest && !testnet) && (regtest ==> !testnet) && (!NoShortcut() ==> chainArgument == Mainnet)
    }

    /** Network `c` is asked for: by its shortcut, or by `--chain` when no shortcut is set. */
    predicate Requests(c: Chain) {
      Shortcut(c) || (NoShortcut() && chainArgument == c)
    }

    /** `Options::chain`: the active network. */
    function SelectedChain(): (c: Chain)
      ensures Requests(c)
      ensures ChainFlagsExclusive() ==> forall other :: Requests(other) ==> other == c
      ensures !NoShortcut() ==> Shortcut(c)
      ensures signet ==> c == Signet
      ensures regtest && !signet ==> c == Regtest
    {
      if signet then
        Signet
      else if regtest then
        Regtest
      else if testnet then
        Testnet
      else
        chainArgument
    }

    /**
     * `Options::first_inscription_height`: the height below which no
     * inscription is looked for. `chainHeight` is `Chain::first_inscription_height`.
     */
    function FirstInscriptionHeight(integrationTest: bool, chainHeight: Chain -> u64): (h: u64)
      ensures h == 0 || Some(h) == firstInscriptionHeight || h == chainHeight(SelectedChain())
      ensures firstInscriptionHeight.Some? && (SelectedChain() == Regtest || !integrationTest) ==>
        h == firstInscriptionHeight.value
      ensures SelectedChain() == Regtest && firstInscriptionHeight.None? ==> h == 0
      ensures SelectedChain() != Regtest && integrationTest ==> h == 0
      ensures SelectedChain() != Regtest && !integrationTest && firstInscriptionHeight.None? ==>
        h == chainHeight(SelectedChain())
    {
      if SelectedChain() == Regtest then
        firstInscriptionHeight.UnwrapOr(0)
      else if integrationTest then
        0
      else
        firstInscriptionHeight.UnwrapOr(chainHeight(SelectedChain()))
    }

    /** `Options::rpc_url`: the node's endpoint. */
    function RpcUrl(): (url: string)
      ensures rpcUrl.Some? ==> url == rpcUrl.value
      ensures rpcUrl.None? ==> url == DefaultRpcUrl(DefaultRpcPort(SelectedChain()), wallet)
    {
      match rpcUrl
      case Some(url) => url
      case None => DefaultRpcUrl(DefaultRpcPort(SelectedChain()), wallet)
    }

    /** `Options::cookie_file`: the file holding the node's RPC credentials. */
    function CookieFile(p: Platform): (r: Result<Path, Error>)
      ensures cookieFile.Some? ==> r == Ok(cookieFile.value)
      ensures cookieFile.None? && dogecoinDataDir.Some? ==>
        r == Ok(JoinWithDataDir(SelectedChain(), dogecoinDataDir.value) + [COOKIE_FILE_NAME])
      ensures cookieFile.None? && dogecoinDataDir.None? && p.isLinux ==>
        r == if p.homeDir.Some?
             then Ok(JoinWithDataDir(SelectedChain(), p.homeDir.value + [".dogecoin"]) + [COOKIE_FILE_NAME])
             else Err(HomeDirUnavailable)
      ensures cookieFile.None? && dogecoinDataDir.None? && !p.isLinux ==>
        r == if p.dataDir.Some?
             then Ok(JoinWithDataDir(SelectedChain(), p.dataDir.value + ["Dogecoin"]) + [COOKIE_FILE_NAME])
             else Err(DataDirUnavailable)
    {
      if cookieFile.Some? then
        Ok(cookieFile.value)
      else
        var base :-
          if dogecoinDataDir.Some? then
            Ok(dogecoinDataDir.value)
          else if p.isLinux then
            if p.homeDir.None? then Err(HomeDirUnavailable) else Ok(p.homeDir.value + [".dogecoin"])
          else
            if p.dataDir.None? then Err(DataDirUnavailable) else Ok(p.dataDir.value + ["Dogecoin"]);
        Ok(JoinWithDataDir(SelectedChain(), base) + [COOKIE_FILE_NAME])
    }

    /** `Options::data_dir`: where the index is stored. */
    function DataDir(p: Platform): (r: Result<Path, Error>)
      ensures dataDir.Some? ==> r == Ok(JoinWithDataDir(SelectedChain(), dataDir.value))
      ensures dataDir.None? ==>
        r == if p.dataDir.Some?
             then Ok(JoinWithDataDir(SelectedChain(), p.dataDir.value + ["ord"]))
             else Err(DataDirUnavailable)
    {
      var base :-
        match dataDir
        case Some(base) => Ok(base)
        case None => if p.dataDir.None? then Err(DataDirUnavailable) else Ok(p.dataDir.value + ["ord"]);
      Ok(JoinWithDataDir(SelectedChain(), base))
    }

    /**
     * `Options::load_config`. `pathExists` and `read` stand for the file system:
     * `read(path)` opens and parses the document at `path`, failing with the
     * message of the I/O or parse error.
     */
    function LoadConfig(pathExists: Path -> bool, read: Path -> Result<Config, string>): (r: Result<Config, Error>)
      ensures config.Some? ==> r == ReadConfig(read, config.value)
      ensures config.None? && configDir.Some? && pathExists(configDir.value + [CONFIG_FILE_NAME]) ==>
        r == ReadConfig(read, configDir.value + [CONFIG_FILE_NAME])
      ensures config.None? && (configDir.None? || !pathExists(configDir.value + [CONFIG_FILE_NAME])) ==>
        r == Ok(DefaultConfig())
    {
      match config
      case Some(path) => ReadConfig(read, path)
      case None =>
        match configDir
        case Some(dir) =>
          if pathExists(dir + [CONFIG_FILE_NAME]) then ReadConfig(read, dir + [CONFIG_FILE_NAME]) else Ok(DefaultConfig())
        case None => Ok(DefaultConfig())
    }

    /** The one document `LoadConfig` reads, if any. */
    function ConfigSource(pathExists: Path -> bool): (source: Option<Path>)
      ensures config.Some? ==> source == config
      ensures config.None? ==> (source.Some? <==> configDir.Some? && pathExists(configDir.value + [CONFIG_FILE_NAME]))
      ensures source.Some? && config.None? ==> source.value == configDir.value + [CONFIG_FILE_NAME]
    {
      if config.Some? then config
      else if configDir.Some? && pathExists(configDir.value + [CONFIG_FILE_NAME]) then Some(configDir.value + [CONFIG_FILE_NAME])
      else None
    }

    /**
     * `Options::dogecoin_rpc_client`: connect to the node with the resolved
     * credentials and endpoint, and accept the connection only when the node
     * is on the active network.
     */
    function DogecoinRpcClient(p: Platform, node: Node): (r: Result<Client, Error>)
      ensures r.Ok? <==>
        CookieFile(p).Ok? && node.connectError.None? && node.chain == Ok(RpcName(SelectedChain()))
      ensures r.Ok? ==> r.value == Client(RpcUrl(), CookieFile(p).value, SelectedChain())
      ensures CookieFile(p).Err? ==> r == Err(CookieFilePath(CookieFile(p).error))
      ensures CookieFile(p).Ok? && node.connectError.Some? ==>
        r == Err(ConnectFailed(RpcUrl(), CookieFile(p).value, node.connectError.value))
      ensures CookieFile(p).Ok? && node.connectError.None? && node.chain.Err? ==>
        r == Err(RpcFailed(GetBlockchainInfo, node.chain.error))
      ensures CookieFile(p).Ok? && node.connectError.None? && node.chain.Ok?
              && (forall c :: RpcName(c) != node.chain.value) ==>
        r == Err(UnknownChain(node.chain.value))
      ensures forall remote :: CookieFile(p).Ok? && node.connectError.None? && node.chain == Ok(RpcName(remote))
                               && remote != SelectedChain() ==>
        r == Err(ChainMismatch(remote, SelectedChain()))
      ensures r.Err? && r.error.ChainMismatch? ==>
        r.error.local == SelectedChain() && r.error.remote != r.error.local && node.chain == Ok(RpcName(r.error.remote))
      ensures r.Err? && r.error.UnknownChain? ==>
        node.chain == Ok(r.error.reported) && forall c :: RpcName(c) != r.error.reported
    {
      match CookieFile(p)
      case Err(e) => Err(CookieFilePath(e))
      case Ok(cookieFile) =>
        var url := RpcUrl();
        if node.connectError.Some? then
          Err(ConnectFailed(url, cookieFile, node.connectError.value))
        else
          match node.chain
          case Err(e) => Err(RpcFailed(GetBlockchainInfo, e))
          case Ok(reported) =>
            var remote :- RemoteChain(reported);
            var local := SelectedChain();
            if remote != local then Err(ChainMismatch(remote, local)) else Ok(Client(url, cookieFile, remote))
    }

    /**
     * `Options::dogecoin_rpc_client_for_wallet_command`: a node connection for
     * a wallet command. The node must be at least `MIN_VERSION`; unless the
     * command creates the wallet, the wallet is loaded and must have the
     * descriptors of a wallet this tool created.
     */
    function DogecoinRpcClientForWalletCommand(p: Platform, node: Node, create: bool): (r: Result<Client, Error>)
      ensures DogecoinRpcClient(p, node).Err? ==> r == DogecoinRpcClient(p, node)
      ensures r.Ok? ==> DogecoinRpcClient(p, node) == r
      ensures r.Ok? ==> node.version.Ok? && node.version.value >= MIN_VERSION
      ensures r.Ok? && !create ==> node.descriptors.Ok? && IsOrdWallet(node.descriptors.value)
      ensures r.Ok? && !create ==> node.wallets.Ok? && (wallet !in node.wallets.value ==> node.loadWalletError.None?)
      ensures DogecoinRpcClient(p, node).Ok? && node.version.Ok? && node.version.value < MIN_VERSION ==>
        r == Err(VersionTooOld(FormatVersion(MIN_VERSION), FormatVersion(node.version.value)))
      ensures DogecoinRpcClient(p, node).Ok? && node.version.Err? ==>
        r == Err(RpcFailed(GetVersion, node.version.error))
      ensures create ==>
        (r.Ok? <==> DogecoinRpcClient(p, node).Ok? && node.version.Ok? && node.version.value >= MIN_VERSION)
      ensures DogecoinRpcClient(p, node).Ok? && node.version.Ok? && node.version.value >= MIN_VERSION && !create ==>
        r == match node.wallets
             case Err(e) => Err(RpcFailed(ListWallets, e))
             case Ok(loaded) =>
               if wallet !in loaded && node.loadWalletError.Some? then Err(RpcFailed(LoadWallet, node.loadWalletError.value))
               else if node.descriptors.Err? then Err(RpcFailed(ListDescriptors, node.descriptors.error))
               else if IsOrdWallet(node.descriptors.value) then DogecoinRpcClient(p, node)
               else Err(UnexpectedDescriptors(wallet))
      ensures r.Err? && r.error.UnexpectedDescriptors? ==>
        !create && r.error.wallet == wallet && node.descriptors.Ok? && !IsOrdWallet(node.descriptors.value)
    {
      var client :- DogecoinRpcClient(p, node);
      match node.version
      case Err(e) => Err(RpcFailed(GetVersion, e))
      case Ok(version) =>
        if version < MIN_VERSION then
          Err(VersionTooOld(FormatVersion(MIN_VERSION), FormatVersion(version)))
        else if create then
          Ok(client)
        else
          match node.wallets
          case Err(e) => Err(RpcFailed(ListWallets, e))
          case Ok(loaded) =>
            if wallet !in loaded && node.loadWalletError.Some? then
              Err(RpcFailed(LoadWallet, node.loadWalletError.value))
            else
              match node.descriptors
              case Err(e) => Err(RpcFailed(ListDescriptors, e))
              case Ok(descriptors) =>
                if !IsOrdWallet(descriptors) then Err(UnexpectedDescriptors(wallet)) else Ok(client)
    }
  }

  /** The options as parsed from a command line that passes no option at all. */
  function DefaultOptions(): (o: Options)
    ensures o.SelectedChain() == Mainnet && o.wallet == DEFAULT_WALLET && o.ChainFlagsExclusive()
  {
    Options(None, Mainnet, None, None, None, None, None, None, None, false, false, None, false, false, DEFAULT_WALLET)
  }

  /** Reading the document at `path`, its failure reported as a configuration error. */
  function ReadConfig(read: Path -> Result<Config, string>, path: Path): (r: Result<Config, Error>)
    ensures r.Ok? <==> read(path).Ok?
    ensures r.Ok? ==> r.value == read(path).value
    ensures r.Err? ==> r.error == ConfigUnreadable(read(path).error)
  {
    read(path).MapErr(detail => ConfigUnreadable(detail))
  }

  /** The network a node's reported chain name stands for. */
  function RemoteChain(reported: string): (r: Result<Chain, Error>)
    ensures r.Ok? ==> RpcName(r.value) == reported
    ensures r.Err? ==> r.error == UnknownChain(reported) && forall c :: RpcName(c) != reported
  {
    match reported
    case "main" => Ok(Mainnet)
    case "test" => Ok(Testnet)
    case "regtest" => Ok(Regtest)
    case "signet" => Ok(Signet)
    case _ => Err(UnknownChain(reported))
  }

  /**
   * Each field of a node version number is two decimal digits, except the
   * unbounded major. The lower groups of `version % 1000000` and of
   * `version % 10000` are those of `version`, since the dropped part is a
   * multiple of the divisor.
   */
  lemma VersionDigitGroups(version: nat)
    ensures version % 1000000 / 10000 < 100 && version % 10000 / 100 < 100 && version % 100 < 100
    ensures 1000000 * (version / 1000000) + 10000 * (version % 1000000 / 10000) + 100 * (version % 10000 / 100)
            + version % 100 == version
  {
    DropMultiple(100 * (version / 1000000), version % 1000000, 10000);
    DropMultiple(100 * (version / 10000), version % 10000, 100);
  }

  /** Adding a multiple of the divisor leaves the remainder alone (for the two divisors used here). */
  lemma DropMultiple(k: nat, r: nat, d: nat)
    requires d == 100 || d == 10000
    ensures (d * k + r) % d == r % d
  {
  }

  /** The four fields of a node version number, most significant first. */
  function VersionFields(version: nat): (f: (nat, nat, nat, nat))
    ensures f.1 < 100 && f.2 < 100 && f.3 < 100
    ensures 1000000 * f.0 + 10000 * f.1 + 100 * f.2 + f.3 == version
  {
    VersionDigitGroups(version);
    (version / 1000000, version % 1000000 / 10000, version % 10000 / 100, version % 100)
  }

  /** Reads a `major.minor.revision.build` string back as a version number. */
  function ParseVersion(s: string): Option<nat> {
    var fields := SplitOn(s, '.');
    if |fields| == 4 && forall i :: 0 <= i < 4 ==> IsDigits(fields[i]) then
      Some(1000000 * DigitsValue(fields[0]) + 10000 * DigitsValue(fields[1]) + 100 * DigitsValue(fields[2])
           + DigitsValue(fields[3]))
    else
      None
  }

  /** A dot after a field without dots ends that field. */
  lemma SplitAfterField(a: string, r: string)
    requires IsDigits(a)
    ensures SplitOn(a + "." + r, '.') == [a] + SplitOn(r, '.')
  {
    DigitsExclude(a, '.');
    assert a + "." + r == a + ['.'] + r;
    SplitOnFirstSeparator(a, r, '.');
  }

  /** The dotted rendering of four numbers splits back into their four renderings. */
  lemma DottedFields(a: string, b: string, c: string, d: string)
    requires IsDigits(a) && IsDigits(b) && IsDigits(c) && IsDigits(d)
    ensures SplitOn(a + "." + b + "." + c + "." + d, '.') == [a, b, c, d]
  {
    var cd := c + "." + d;
    var bcd := b + "." + cd;
    DigitsExclude(d, '.');
    SplitOnWithoutSeparator(d, '.');
    SplitAfterField(c, d);
    SplitAfterField(b, cd);
    SplitAfterField(a, bcd);
    assert a + "." + b + "." + c + "." + d == a + "." + bcd;
  }

  /**
   * `Options::format_dogecoin_core_version`: a version number as
   * `major.minor.revision.build`, which reads back as the same number.
   */
  function FormatVersion(version: usize): (s: string)
    ensures var f := VersionFields(version);
      SplitOn(s, '.') == [NatToString(f.0), NatToString(f.1), NatToString(f.2), NatToString(f.3)]
    ensures ParseVersion(s) == Some(version as nat)
  {
    var (major, minor, revision, build) := VersionFields(version);
    var s := NatToString(major) + "." + NatToString(minor) + "." + NatToString(revision) + "." + NatToString(build);
    DottedFields(NatToString(major), NatToString(minor), NatToString(revision), NatToString(build));
    DigitsValueOfNatToString(major);
    DigitsValueOfNatToString(minor);
    DigitsValueOfNatToString(revision);
    DigitsValueOfNatToString(build);
    s
  }
}
