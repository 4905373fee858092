# hdwallet: BIP-0044 key options, key derivation and Bitcoin addresses

This Dafny project models the core of the Go library `hdwallet`. The library builds hierarchical deterministic (BIP-0032) keys from a mnemonic or a seed. It derives them along the five BIP-0044 path levels (purpose, coin type, account, change, address index) and prints Bitcoin addresses in four formats: legacy, taproot, native segwit and nested segwit.

The model has five modules:

- `Types` (types.go, wallet.go) holds the shared definitions:
  - Go's `uint32`, whose wrap-around is written out modulo 2^32;
  - the hardened offset `ZeroQuote` and the SLIP-0044 coin types;
  - the wordlist names and the network tables (by identity only);
  - the `AddressType` tag with its `EqualTo`;
  - the shapes used for `(value, error)` returns and for a nil dereference (`Outcome`: returns or panics).
- `GoStrings` covers the parts of Go's standard library that the path codec depends on, each stated by its documented behaviour:
  - `strconv.ParseInt(s, 10, 64)`, including its syntax and range errors;
  - `%d` printing;
  - `strings.TrimPrefix`, `TrimSuffix` and `Split`.

  They are proved against a reference reading of decimal text (`DecimalValue`) and against `Join`.
- `KeyOptions` (key_option.go) covers:
  - the option struct and its defaults;
  - the option closures, one datatype alternative per setter, each applied to a `KeyOption` object in place;
  - `newKeyOption`'s loop;
  - the path codec `PathNumber` / `PathFunc` / `GetPath` / `GetPathString`, with its round trips in both directions.
- `Keys` (key.go) covers:
  - the `Key` object;
  - `init`, which fills in the key fields;
  - the derivation loop of `GetChildrenKey`, proved against a left fold `DerivePath`;
  - `NewMasterKey`'s seed choice and error flow;
  - the key's address helpers.

  Every call into btcsuite and go-bip39 is a field of `Library`, an abstract function that may fail wherever the library's may.
- `BtcWallet` (wallet_btc.go) covers:
  - the `Btc` wallet value;
  - its four constructors from a master key;
  - the `AddressWithType` dispatch, which reports every failure as `""`;
  - the four encoders.

  Lemmas tie these encoders to the key's own address helpers.

In `Result<T>`, `Err(e)` stands for Go's `(zero value, e)`. For the string-returning helpers that zero value is `""`.

## Model

| member | source | states |
|---|---|---|
| Types.AddSubCancel | key_option.go:48-55 | subtracting the hardened offset and adding it back, modulo 2^32, gives back every uint32, so a printed level is read back as it was |
| Types.AddressType.EqualTo | wallet.go:12-14 | two tags are `EqualTo` exactly when they are the same tag |
| GoStrings.ParseInt | key_option.go:153 | the parsed value always lies in the int64 range |
| GoStrings.ParseIntDecimal | key_option.go:153 | an optional `+`/`-` followed by decimal digits parses to the signed value of the digits, clamped to the int64 bounds when it does not fit |
| GoStrings.ParseIntSyntaxError | key_option.go:153 | the empty string, a lone sign, and text with a non-digit before any overflow all parse to 0 |
| GoStrings.FormatUint | key_option.go:49-54 | `%d` of n is canonical decimal text (no leading zero) whose value is n |
| GoStrings.FormatUintOfCanonical | key_option.go:49-54 | canonical decimal text is the `%d` of its own value, so printing is onto canonical text |
| GoStrings.ParseIntFormatUint | key_option.go:153 | ParseInt reads `%d` of any n up to MaxInt64 back as n |
| GoStrings.TrimPrefix | key_option.go:138 | with the prefix present, the text is prefix + result; otherwise the text is unchanged |
| GoStrings.TrimSuffix | key_option.go:153 | with the suffix present, the text is result + suffix; otherwise the text is unchanged |
| GoStrings.Split | key_option.go:139 | Split always gives at least one piece |
| GoStrings.JoinSplit | key_option.go:139 | joining the pieces of a split with the separator gives back the text |
| GoStrings.SplitJoin | key_option.go:139 | splitting the join of separator-free pieces gives back the pieces |
| KeyOptions.Defaults | key_option.go:10-19 | the starting options: path 44'/0'/0'/0/0 (purpose 44', coin BTC, account 0', change 0, index 0), main network, english, empty mnemonic, password and seed |
| KeyOptions.GetPath | key_option.go:38-46 | exactly five indices: purpose, coin type, account, change, address index, in BIP-0044 order |
| KeyOptions.PathSegments | key_option.go:138-139 | removing `m/` and splitting on `/` yields at least one piece |
| KeyOptions.KeyOption.constructor | key_option.go:58-67 | a new option struct holds the defaults |
| KeyOptions.KeyOption.Apply | key_option.go:76-149 | running a closure on the struct leaves it holding `Applied(old value, closure)`: the setter's one field, or PathFunc's five levels |
| KeyOptions.KeyOption.ApplyPath | key_option.go:136-149 | PathFunc's closure body: the struct becomes `Applied(old, PathFunc(path))`, and it is left unchanged unless there are exactly five pieces |
| KeyOptions.NewKeyOption | key_option.go:57-72 | a fresh struct holding the defaults with the closures applied left to right (`ApplyAll`); the loop invariant carries this |
| KeyOptions.PathNumberHardened | key_option.go:151-159 | a level ending in `'` loses exactly one `'` and becomes its int64 value truncated to uint32, plus 2^31 modulo 2^32 |
| KeyOptions.PathNumberPlain | key_option.go:151-159 | a level without `'` becomes its int64 value truncated to uint32 |
| KeyOptions.PathNumberOfFormat | key_option.go:151-159 | `%d` of x reads back as x, and with `'` as x + 2^31 modulo 2^32 |
| KeyOptions.PathNumberExamples | key_option.go:151-159 | `44'` gives 0x8000002C, `0'` gives 0x80000000, `44` gives 44 |
| KeyOptions.PathNumberMalformed | key_option.go:153-157 | a level starting with neither a digit nor a sign reads as 0, and as 0x80000000 with `'` (`x` gives 0, `x'` gives 0x80000000) |
| KeyOptions.PathNumberDoubleQuote | key_option.go:153-157 | only one `'` is stripped: a printed value followed by `''` (such as `44''`) is a syntax error before the offset and gives 0x80000000 |
| KeyOptions.PathNumberWraps | key_option.go:153-154 | a printed value up to MaxInt64 reads as itself modulo 2^32 (2^32 + 44 gives 44): the uint32 truncation |
| KeyOptions.PathNumberNegative | key_option.go:153-154 | `-1` gives 0xFFFFFFFF |
| KeyOptions.Applied | key_option.go:76-149 | PathFunc's closure changes only the five path levels, and changes nothing unless the path has exactly five pieces |
| KeyOptions.PathFuncEffect | key_option.go:136-149 | with exactly five pieces, PathFunc sets level k to PathNumber of piece k, in order |
| KeyOptions.PathStringSegments | key_option.go:48-55 | GetPathString's text splits back into the five printed levels, the first three marked `'` |
| KeyOptions.PathStringRoundTrip | key_option.go:48-55 | PathFunc of GetPathString(o) gives any options exactly o's five levels, for every uint32 value, and reproduces o itself |
| KeyOptions.CanonicalPathRoundTrip | key_option.go:48-55 | a canonical path `m/a'/b'/c'/d/e` parsed by PathFunc prints back as the same text |
| KeyOptions.DefaultPathString | key_option.go:10-19 | the defaults print as `m/44'/0'/0'/0/0` |
| KeyOptions.AppliedField | key_option.go:76-149 | a closure keeps every field it does not touch, and what it writes does not depend on the struct it is applied to |
| KeyOptions.ApplyAllAppend | key_option.go:68-70 | applying fs then gs is applying fs + gs |
| KeyOptions.UntouchedFieldKept | key_option.go:57-72 | a field no closure touches keeps its starting value (its default, in newKeyOption) |
| KeyOptions.LastSetterWins | key_option.go:68-70 | the last closure touching a field decides its value |
| KeyOptions.PathClosureCall | key_option.go:136-149 | one call of PathFunc's closure as written: the captured path becomes its trimmed text, and the options change as Applied says |
| KeyOptions.PathClosureReuse | key_option.go:136-149 | the closure for `m/m/` + a five-piece body writes `m/` + body back and leaves the options alone on its first call; its second call sets the five levels from the body |
| KeyOptions.PathClosureReuseDiverges | key_option.go:138 | for any printed levels a..e, the same closure value for `m/m/a/b/c/d/e` leaves any options alone on its first call and sets the path to a..e on its second, so the two calls differ whenever the path was not already a..e |
| KeyOptions.PathFuncIdempotent | key_option.go:136-149 | with the path not written back, applying the same PathFunc twice is applying it once |
| Keys.DerivePathAppend | key.go:67-73 | deriving along p + q is deriving along p, then along q from the result; an error on p is the result |
| Keys.DerivePathFirstError | key.go:68-72 | a failed derivation fails at one index k: the indices before k all derive, the error is the one derive gave at k, and no index after k affects the result |
| Keys.InitialisedFacts | key.go:47-60 | init reports no error exactly when both key extractions succeed, and then every field is set; a private-key failure returns before Public is touched; the ECDSA public key is always the one inside the ECDSA private key |
| Keys.Key.constructor | key.go:39-42 | the key literal holds the given options and extended key, with the other fields nil |
| Keys.Key.Init | key.go:47-60 | the key fields and the error become those given by `Initialised` from the old fields; the options and extended key are unchanged |
| Keys.Key.GetChildrenKey | key.go:62-80 | options built from opts alone; derivation along their path from this key; a derive error gives no key and that error; otherwise a fresh initialised child with those options, returned with init's error; this key is not modified |
| Keys.Key.AddressBTC | key.go:82-88 | fails exactly when PublicHash fails, with the same error; on success it is the encoding of the extended key's pay-to-pubkey-hash address |
| Keys.Key.AddressP2WPKH | key.go:90-100 | an error of the public hash or of the witness address is returned as it is; succeeds exactly when both succeed, with the encoding of the witness address of the public hash |
| Keys.Key.AddressP2WPKHInP2SH | key.go:102-120 | whenever AddressP2WPKH fails it fails with the same error; after it, a script error or a script-hash error is returned as it is; succeeds exactly when all four stages succeed, with the encoding of the script-hash address of the P2WPKH script |
| Keys.NewMasterKey | key.go:24-45 | the explicit seed if non-empty, otherwise the mnemonic's seed; a seed or master-key error gives no key and that error; otherwise a fresh initialised key whose options carry the seed used |
| BtcWallet.Btc.Type | wallet_btc.go:62-64 | the held key's coin type; panics exactly when the key is nil |
| BtcWallet.Btc.AddressWithType | wallet_btc.go:82-105 | tag 0 is legacy, 1 taproot, 2 native segwit, 3 nested segwit, each with its error reported as `""`; any other tag gives `""`; a panic needs a nil key, or a nil public key for a non-legacy format |
| BtcWallet.Btc.Address | wallet_btc.go:78-80 | the address in the wallet's own format |
| BtcWallet.Collapse | wallet_btc.go:86-101 | an encoder's address, or `""` on any error; a panic stays a panic |
| BtcWallet.NewBTCFromKey | wallet_btc.go:17-24 | stores the key and format unchanged, named Bitcoin with symbol BTC |
| BtcWallet.WalletOptions | wallet_btc.go:27 | the constructors' options are the defaults with the given purpose, so the path is purpose/0'/0'/0/0 |
| BtcWallet.NewBtcLegacyFromMasterKey | wallet_btc.go:26-33 | a legacy Bitcoin wallet holding the child at purpose 44', or nil if derivation failed |
| BtcWallet.NewBtcTaprootFromMasterKey | wallet_btc.go:35-42 | a taproot Bitcoin wallet holding the child at purpose 86', or nil if derivation failed |
| BtcWallet.NewBtcNativeSegwitFromMasterKey | wallet_btc.go:44-51 | a native segwit Bitcoin wallet holding the child at purpose 84', or nil if derivation failed |
| BtcWallet.NewBtcNestedSegwitFromMasterKey | wallet_btc.go:53-60 | a nested segwit Bitcoin wallet holding the child at purpose 49', or nil if derivation failed |
| BtcWallet.WalletPathString | wallet_btc.go:26-60 | a constructor's key path prints as `m/n'/0'/0'/0/0` |
| BtcWallet.LegacyPath | wallet_btc.go:26-33 | the legacy key's path is `m/44'/0'/0'/0/0` |
| BtcWallet.TaprootPath | wallet_btc.go:35-42 | the taproot key's path is `m/86'/0'/0'/0/0` |
| BtcWallet.NativeSegwitPath | wallet_btc.go:44-51 | the native segwit key's path is `m/84'/0'/0'/0/0` |
| BtcWallet.NestedSegwitPath | wallet_btc.go:53-60 | the nested segwit key's path is `m/49'/0'/0'/0/0` |
| BtcWallet.EmptyAddressIffFailure | wallet_btc.go:82-105 | with a key and an encoder that never prints `""`, the address is `""` exactly when the tag is unknown or the selected encoder failed |
| BtcWallet.LegacyIsAddressBTC | wallet_btc.go:107-113 | the legacy format is the key's AddressBTC with its error reported as `""` |
| BtcWallet.NativeSegwitIsAddressP2WPKH | wallet_btc.go:130-138 | native segwit is hash160 of the compressed public key as a witness-v0 address, equal to the key's AddressP2WPKH when the key's public hash is that hash160 |
| BtcWallet.NestedWitIsAddressP2WPKHInP2SH | wallet_btc.go:140-154 | nested segwit equals the key's AddressP2WPKHInP2SH, given that hash, and given that this key's P2WPKH script can be built and that its P2SH address is the one built from its hash160 |
| BtcWallet.NestedWitIgnoresScriptError | wallet_btc.go:147-148 | when the P2WPKH script fails, nestedWit goes on with hash160 of the empty script instead of reporting the error |

## Left out

- seed.go is not part of this model. Its `NewSeed` (BIP-0039 checking and PBKDF2) is the `Library.newSeed` field. Its `setLanguage`, which mutates go-bip39's global wordlist, is not modelled.
- Inside btcsuite (BIP-0032 derivation, hashing, Base58Check, Bech32/Bech32m, the taproot tweak, script building, key parsing), every call is an abstract `Library` field. These fields are deterministic, and only their failure and data flow are modelled, never address bytes.
- `chaincfg.Params` tables are modelled as which table is meant, not their contents: `MainNetParams`, `TestNet3Params`, or any other table by name (`OtherParams`). A nil `*chaincfg.Params` cannot be represented; it would make btcsuite's encoders panic.
- The ETH, LTC, DOGE, DASH, BCH and token constants are declared and unused. The ECDSA fields of `Key` are only carried.
- The `Key.Opt` pointer is stored as an `Options` value. The struct is built once per key and not shared afterwards, so aliasing is not observable.
- `Btc.key()` is the field `k` itself and has no separate member.
- `Btc.Name` and `Btc.Symbol` return the stored fields. Their content is stated by `NewBTCFromKey`.
- `Btc.Legacy`, `TaprootAddress`, `NativeSegwit` and `NestedWit` have no contract of their own. They are stated through `AddressWithType` and the lemmas that tie them to the key's address helpers.
- `KeyOptions.PathNumber` has no contract of its own. Its hardened/plain split is stated by `PathNumberHardened` and `PathNumberPlain`, its values by the lemmas beside them.
- `KeyOptions.GetPathString` has no contract of its own. It is stated by `PathStringSegments` and the two round trips.
- KeyOptions.KeyOption.Apply, KeyOptions.KeyOption.ApplyPath and KeyOptions.NewKeyOption model a PathFunc option as a stateless value (the corrected reading under "## Findings"). In Go the closure writes its trimmed path back into its captured variable. So one closure value `f := PathFunc("m/m/" + body)` applied twice, as in `ApplyAll(Defaults(), [f, f])`, leaves the defaults unchanged here, while Go's reused closure sets the five levels on its second call. `PathClosureCall` and `PathClosureReuseDiverges` model that behaviour.
- `Keys.Key.PublicHash` has no contract of its own. It is stated through `AddressBTC` and `AddressP2WPKH`.
- The four `NewBtc*FromMasterKey` constructors and `GetChildrenKey` take a non-nil key. Calling them on a nil master panics in Go, and that panic is not modelled.
- Go strings are byte strings and are modelled as character sequences. Every character the code tests is ASCII, so the results agree.
- `strconv.ParseInt`'s error value is dropped by the code, so only the returned number is modelled.

## Findings

| source | as written | input that shows it | evidently intended | confidence | as-written member | corrected member |
|---|---|---|---|---|---|---|
| key_option.go:138 | the closure returned by `PathFunc` assigns the trimmed path back to its captured `path`, so each call of the same closure value trims `m/` again | one value `PathFunc("m/m/1/2/3/4/5")` applied twice to the defaults: the first call sees six pieces and changes nothing; the second sees `1/2/3/4/5` and sets the path (the lemma proves this for every printed `m/m/a/b/c/d/e`) | an option closure has the same effect every time it is applied (trim into a local variable) | medium, not executed | KeyOptions.PathClosureReuseDiverges | KeyOptions.PathFuncIdempotent |

The rest of the model uses the corrected reading. `Applied(o, PathFunc(path))` trims a local copy, so applying one PathFunc option twice is the same as applying it once. `PathClosureCall` is the closure as written. It agrees with `Applied` on any single call and differs only on reuse.

A second observation does not qualify as a finding: `nestedWit` (wallet_btc.go:147) never reads the error from `PayToAddrScript`. `NestedWitIgnoresScriptError` states what then happens. With a witness address, btcsuite's `PayToAddrScript` does not fail, so no input is known that reaches this path.
