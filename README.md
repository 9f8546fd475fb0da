# Option resolution of `ord` for Dogecoin, modelled in Dafny

This project models how the `ord` command-line tool (the Dogecoin port of the
inscription indexer) resolves its runtime configuration from its parsed
options, as `impl Options` in `src/options.rs` does, and proves properties of
that resolution:

- **network selection**: `--signet`, `--regtest` and `--testnet` beat `--chain`;
- **layered defaults**: the RPC endpoint, the node's cookie file and the index
  data directory each take an explicit override, else a default built from the
  platform's directories and the network's sub-directory; the first
  inscription height has a regtest special case;
- **configuration source**: `--config`, else `<config-dir>/ord.yaml` if that
  file exists, else the default configuration; one document at most is read;
- **node checks**: the chain a node reports must be the local network; wallet
  commands need Dogecoin Core 1.14.6.0 or newer (versions shown in four dotted
  fields), and a wallet that is not being created must hold exactly two `tr(`
  descriptors, all others `rawtr(`.

Every resolution step is a function over the immutable `Options` value, as in
the source. What the source asks of the outside world is a parameter:
`Platform` carries the home and data directories and whether the host is
Linux; `pathExists` and `read` stand for the file system when loading the
configuration; `Node` carries the node's answer to each RPC call;
`integrationTest` and `chainHeight` stand for `integration_test()` and
`Chain::first_inscription_height`. Paths are sequences of components, and
joining appends one.

Files: `wrappers.dfy` (Option, Result), `decimal.dfy` (decimal rendering, its
inverse, and splitting at a separator), `descriptors.dfy` (the descriptor shape
of a wallet), `chains.dfy` (the per-network constants), `options.dfy` (the
options and their resolution), `properties.dfy` (properties across calls and
inputs), `options_tests.dfy` (the source's unit tests, for all platforms).

An explicit `--data-dir` still gets the network's sub-directory appended
(src/options.rs:107-116 and the test at 369-387). `chain()` resolves combined
shortcut flags by precedence: signet, then regtest, then testnet. Only the
argument parser rejects such combinations, and `ChainFlagsExclusive` states its
rule.

## Model

| member | source | states |
|---|---|---|
| `Configuration.Options.SelectedChain` | src/options.rs:51-61 | the active network is one the flags ask for; with exclusive flags it is the only one; any shortcut beats `--chain`; signet beats regtest, which beats testnet |
| `Configuration.Options.FirstInscriptionHeight` | src/options.rs:63-73 | the height is the override, 0 or the network default; the override wins on regtest and whenever integration-test mode is off; regtest defaults to 0; integration-test mode gives 0 off regtest |
| `Configuration.Options.RpcUrl` | src/options.rs:75-83 | an explicit endpoint is returned unchanged; otherwise `127.0.0.1:<network port>/wallet/<wallet>` |
| `Configuration.DefaultRpcUrlInjective` | src/options.rs:77-81 | two default endpoints are equal exactly when port and wallet are |
| `Configuration.Options.CookieFile` | src/options.rs:85-105 | explicit cookie file verbatim; else node data dir, Linux home `.dogecoin` or platform data `Dogecoin`, then the network segment, then `.cookie`; missing home or data dir is the matching error |
| `Configuration.Options.DataDir` | src/options.rs:107-116 | `--data-dir`, else platform data dir + `ord`, with the network segment appended either way; a missing platform data dir is an error |
| `Configuration.Options.LoadConfig` | src/options.rs:118-128 | `--config` is read and its failure reported; else `<config-dir>/ord.yaml` is read if it exists; else the default configuration |
| `Configuration.Options.ConfigSource` | src/options.rs:119-126 | names the one document loading reads: the `--config` file, or `ord.yaml` in the config dir when it exists, else none |
| `Configuration.ReadConfig` | src/options.rs:120-123 | reading succeeds exactly when the file's open and parse do, with that config; a failure becomes a configuration error carrying the cause |
| `Configuration.RemoteChain` | src/options.rs:160-166 | a reported chain name maps to the network whose node name it is; any other name is an unknown-chain error, and no network has that name |
| `Configuration.Options.DogecoinRpcClient` | src/options.rs:140-175 | a client is returned exactly when the cookie path resolves, the connection opens and the node reports the active network; the client holds the resolved URL, cookie path and network; an unresolvable cookie path, a failed connection, a failed `get_blockchain_info`, an unknown chain name and a network mismatch each give their own error, the mismatch naming the node's network first and the local one second |
| `Configuration.Options.DogecoinRpcClientForWalletCommand` | src/options.rs:177-214 | a failure of the plain client is returned as is; a failed version call, an old node (with both formatted versions), a failed wallet listing, a failed load of an unlisted wallet and a failed descriptor listing each give their own error; creation on a recent node returns the plain client; otherwise the plain client is returned exactly when the descriptors have the ord shape, and the wallet is refused by name when they do not |
| `Configuration.Options.ChainFlagsExclusive` | src/options.rs:4-8 | the argument group holds exactly when at most one network is asked for and a shortcut is never beside a non-default `--chain` |
| `Configuration.Error.Message` | src/options.rs:94-209 | each error displays with the source's message: missing home or data dir, cookie path, connection, unknown chain, network mismatch, version, descriptors |
| `Configuration.PathDisplay` | src/options.rs:155-156 | components joined by `/`, with no `/` doubled after a root component |
| `Configuration.EndsWith` | src/options.rs:250-254 | `Path::ends_with`: the suffix is a trailing run of whole components |
| `Configuration.VersionFields` | src/options.rs:133-136 | the minor, revision and build fields are below 100 and the four fields recombine to the version |
| `Configuration.VersionDigitGroups` | src/options.rs:133-136 | the arithmetic behind the fields: each lower group is below 100 and the groups weighted by 1000000, 10000, 100 and 1 sum to the version |
| `Configuration.FormatVersion` | src/options.rs:130-138 | the string splits at its dots into exactly the decimal renderings of the four fields, most significant first, and reads back as the version |
| `Configuration.DottedFields` | src/options.rs:131-137 | four digit strings joined by dots split back into the four strings |
| `Descriptors.StartsWith` | src/options.rs:200-205 | `str::starts_with`: the prefix is the string's leading run of characters |
| `Descriptors.CountStartingWith` | src/options.rs:198-206 | the count is at most the number of descriptors; it is zero exactly when none has the prefix and full exactly when all have it |
| `Descriptors.TaprootTagsExclusive` | src/options.rs:198-206 | no descriptor starts with both `tr(` and `rawtr(` |
| `Descriptors.CountUntagged` | src/options.rs:198-206 | no untagged descriptor is counted exactly when each one starts with `tr(` or `rawtr(` |
| `Descriptors.DescriptorsPartition` | src/options.rs:198-208 | `tr(`, `rawtr(` and untagged counts add up to the number of descriptors |
| `Descriptors.IsOrdWallet` | src/options.rs:208 | the count test holds exactly when there are two `tr(` descriptors and every other one is `rawtr(` |
| `Configuration.DefaultRpcUrl` | src/options.rs:77-81 | the default endpoint text `127.0.0.1:<port>/wallet/<wallet>` |
| `Configuration.DefaultConfig` | src/options.rs:125 | the default configuration hides nothing |
| `Configuration.DefaultOptions` | src/options.rs:9-48 | with no flags the network is mainnet, the wallet is `ord`, and the flags are well formed |
| `Chains.DataDirSegment` | src/options.rs:389-437 | mainnet adds no path component; every other network adds exactly one |
| `Chains.JoinWithDataDir` | src/options.rs:102 | the network's directory is the base extended by at most one component |
| `Chains.JoinWithDataDirInjective` | src/options.rs:115 | under one base, two networks share a directory only if they are the same network |
| `Chains.DefaultRpcPort` | src/options.rs:244-274 | the local node's port per network: 22555 on mainnet and 38332 on signet, as the tests expect |
| `Chains.DisplayName` | src/options.rs:171 | the network name used in messages, `mainnet` and `testnet` as the mismatch test expects |
| `Chains.RpcName` | src/options.rs:160-166 | the chain name a node reports for each network: `main`, `test`, `regtest`, `signet` |
| `Chains.FromArgument` | src/options.rs:389-437 | an accepted `--chain` value is the network's display name or its short name |
| `Chains.FromArgumentAcceptsNames` | src/options.rs:403-436 | every network is accepted under both of its names |
| `Decimal.NatToString` | src/options.rs:131-137 | decimal rendering is a non-empty digit string without a leading zero |
| `Decimal.DigitsValueOfNatToString` | src/options.rs:130-138 | reading back a rendered number gives the number |
| `Decimal.NatToStringInjective` | src/options.rs:130-138 | different numbers render differently |
| `Decimal.SplitAtSeparator` | src/options.rs:77-81 | a string cut at a separator its head lacks is cut in one way only |
| `Decimal.SplitOnWithoutSeparator` | src/options.rs:131-137 | a string without the separator splits into itself alone |
| `Decimal.SplitOnFirstSeparator` | src/options.rs:131-137 | splitting at the first separator gives the head, then the pieces of the rest |
| `ResolutionProperties.SelectedChainDependsOnlyOnFlags` | src/options.rs:51-61 | only the four network options decide the network |
| `ResolutionProperties.SelectedChainIffRequested` | src/options.rs:51-61 | with exclusive flags, a network is active exactly when asked for |
| `ResolutionProperties.RpcUrlOverrideIgnoresNetwork` | src/options.rs:75-83 | an explicit endpoint is used whatever the network flags and wallet |
| `ResolutionProperties.DefaultRpcUrlDistinguishes` | src/options.rs:75-83 | two default endpoints agree exactly when wallet and network port agree |
| `ResolutionProperties.CookieFileFailsOnlyWithoutDirectory` | src/options.rs:85-100 | cookie resolution fails exactly when no override is given and the needed platform directory is missing, with the matching error |
| `ResolutionProperties.CookieFileLayout` | src/options.rs:90-104 | without an override the path is base, network segment, `.cookie` |
| `ResolutionProperties.CookieFileOverrideWins` | src/options.rs:86-88 | an explicit cookie file ignores network, node data dir and platform |
| `ResolutionProperties.CookieFilesOfNetworksDiffer` | src/options.rs:102-104 | under one base, different networks get different cookie files |
| `ResolutionProperties.DataDirFailsOnlyWithoutDirectory` | src/options.rs:108-113 | data-dir resolution fails exactly when there is no override and no platform data dir |
| `ResolutionProperties.DataDirLayout` | src/options.rs:107-116 | the data dir is the base followed by the network segment |
| `ResolutionProperties.DataDirOverrideJoinedLikeDefault` | src/options.rs:108-115 | an explicit base gets the network segment exactly as the default base does |
| `ResolutionProperties.DataDirsOfNetworksDiffer` | src/options.rs:115 | under one base, different networks get different data dirs |
| `ResolutionProperties.LoadConfigReadsSource` | src/options.rs:118-128 | loading gives the default without a source, else the reading of the source |
| `ResolutionProperties.LoadConfigReadsOneDocument` | src/options.rs:118-128 | file systems that agree on the source document load the same configuration |
| `ResolutionProperties.LoadConfigFailsOnlyOnChosenDocument` | src/options.rs:118-128 | loading fails exactly when a source was chosen and reading it failed |
| `ResolutionProperties.ExplicitConfigIgnoresDirectory` | src/options.rs:119-120 | with `--config`, the config dir and the file system's other files do not matter |
| `ResolutionProperties.RemoteChainInverse` | src/options.rs:160-166 | a reported name maps to a network exactly when it is that network's node name |
| `ResolutionProperties.RpcClientOnActiveNetwork` | src/options.rs:168-174 | a returned client's node is on the active network |
| `ResolutionProperties.RpcClientRefusesOtherNetwork` | src/options.rs:170-172 | a node on another known network is refused, the message naming remote then local network |
| `ResolutionProperties.FormatVersionInjective` | src/options.rs:130-138 | two versions format alike exactly when they are equal |
| `ResolutionProperties.MinVersionFormat` | src/options.rs:180-186 | the minimum version 1140600 formats as `1.14.6.0` |
| `ResolutionProperties.OldNodeRefusedBeforeWalletLogic` | src/options.rs:180-189 | a node below the minimum is refused whatever the wallet calls would answer |
| `ResolutionProperties.CreateIgnoresWallet` | src/options.rs:191-211 | wallet creation does not depend on the wallet list, load or descriptors |
| `ResolutionProperties.OrdWalletAccepted` | src/options.rs:191-213 | on a recent node, a wallet that is listed or loads without error is accepted with the plain client exactly when its descriptors have the ord shape, and refused by name otherwise |
| `ResolutionProperties.ForeignDescriptorRefused` | src/options.rs:196-210 | one descriptor starting with neither `tr(` nor `rawtr(` gets the wallet refused |
| `ResolutionProperties.CookiePathDisplay` | src/options.rs:155-156 | a rooted path displays as `/foo/bar`, a relative one as `foo/signet/.cookie` |
| `OptionsTests.OnChain` | src/options.rs:259 | `--chain=<c>` alone selects `c` with well-formed flags |
| `OptionsTests.PortDigits` | src/options.rs:248-261 | the ports 22555 and 38332 render as their digits |
| `OptionsTests.RpcUrlOverridesNetwork` | src/options.rs:221-230 | an explicit endpoint wins on signet |
| `OptionsTests.CookieFileOverridesNetwork` | src/options.rs:232-242 | an explicit cookie file wins on signet, on every platform |
| `OptionsTests.UseDefaultNetwork` | src/options.rs:244-255 | mainnet default endpoint `127.0.0.1:22555/wallet/ord`; the cookie file ends in `.cookie` |
| `OptionsTests.UsesNetworkDefaults` | src/options.rs:257-274 | signet default endpoint `127.0.0.1:38332/wallet/ord`; the cookie file ends in `signet/.cookie` |
| `OptionsTests.MainnetCookieFilePath` | src/options.rs:276-293 | mainnet cookie file ends in `.dogecoin/.cookie` on Linux, `Dogecoin/.cookie` elsewhere |
| `OptionsTests.OthernetCookieFilePath` | src/options.rs:295-313 | signet cookie file ends in `.dogecoin/signet/.cookie` on Linux, `Dogecoin/signet/.cookie` elsewhere |
| `OptionsTests.CookieFileDefaultsToDogecoinDataDir` | src/options.rs:315-333 | with node data dir `foo` on signet the cookie file is `foo/signet/.cookie` |
| `OptionsTests.MainnetDataDir` | src/options.rs:335-348 | the mainnet data dir ends in `ord` |
| `OptionsTests.OthernetDataDir` | src/options.rs:350-367 | the signet data dir ends in `ord/signet` |
| `OptionsTests.NetworkIsJoinedWithDataDir` | src/options.rs:369-387 | `--data-dir foo` on signet gives `foo/signet` |
| `OptionsTests.NetworkAcceptsAliases` | src/options.rs:389-437 | each `--chain` alias gives the data dir suffix the test expects, `testnet3` for both testnet names |
| `OptionsTests.RpcServerChainMustMatch` | src/options.rs:439-463 | a testnet node is refused on mainnet with "Dogecoin RPC server is on testnet but ord is on mainnet" |
| `OptionsTests.ChainFlags` | src/options.rs:465-514 | each shortcut alone selects its network; each beside `--chain signet` breaks the argument group |
| `OptionsTests.WalletFlagOverridesDefaultName` | src/options.rs:516-533 | the default wallet is `ord`; a wallet given as `foo` is the options' wallet and the one the default endpoint names |
| `OptionsTests.DefaultConfigIsReturnedIfConfigOptionIsNotPassed` | src/options.rs:535-545 | no config option gives the default configuration on any file system |
| `OptionsTests.ConfigIsLoadedFromConfigOptionAndDirPath` | src/options.rs:547-598 | a document hiding one inscription loads the same via `--config` and via `--config-dir` |

## Left out

- The RPC transport (`Client::new`, `get_blockchain_info`, `version`, `list_wallets`, `load_wallet`, `list_descriptors`): external library I/O; each call's answer is a field of `Node`, and loading a wallet is modelled only by whether it failed.
- YAML parsing and file access (`serde_yaml::from_reader`, `File::open`, `Path::exists`): modelled as the `read` and `pathExists` parameters (`pathExists` holds for directories too, as `Path::exists` does); the parse is not modelled.
- `dirs::home_dir`, `dirs::data_dir` and `cfg!(target_os = "linux")`: the fields of `Platform`.
- `integration_test()`: the `integrationTest` parameter, since it reads the environment.
- Logging (`log::info!`): no effect on results.
- Argument parsing by clap: only its outcome (`Options`) and the argument group's rule (`ChainFlagsExclusive`) are modelled. `Options` cannot tell an explicit `--chain mainnet` from the default, so a shortcut given beside `--chain mainnet`, which the parser rejects, is not excluded.
- `src/chain.rs` is not part of this model. `Chains` supplies what the options use: ports 22555 (mainnet) and 38332 (signet) and the directory segments match the tests; the testnet and regtest ports (44555, 18332) are the Dogecoin Core defaults, and no lemma depends on them. `Chain::first_inscription_height` is the `chainHeight` parameter.
- Parsing `--wallet foo` into `Options.wallet` is clap's work and is not modelled; `WalletFlagOverridesDefaultName` starts from the parsed value.
- `Chains.DisplayName`: only the mainnet and testnet names are fixed by the tests; signet and regtest display as their own names.
- The tests' suffix checks on a path's displayed string (`display().to_string().ends_with(…)`) are stated as suffixes of path components (`EndsWith`).
- Path semantics beyond components: `PathBuf::join` with an absolute path, and the Windows separator in displayed paths, are not modelled.
- `height_limit`, `index` and `index_sats` are carried in `Options` but no modelled operation reads them.
- `src/subcommand/index.rs` is not part of this model: it only opens and updates the index, whose code is not part of this model either.
- Error messages of wrapped causes (I/O, YAML, transport): carried as opaque strings.
