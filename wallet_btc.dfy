/** The Bitcoin wallet: a key with the address format it prints by default.
    Four constructors derive the first receiving key of BIP-0044 (legacy),
    BIP-0086 (taproot), BIP-0084 (native segwit) and BIP-0049 (nested
    segwit) from a master key; `AddressWithType` picks the encoder for a
    format tag and reports every failure as the empty string. A wallet is
    built once and never changed, so it is a value here; the key it holds
    may be nil, and every operation that dereferences it may panic. */
module BtcWallet {
  import opened Types
  import opened GoStrings
  import opened KeyOptions
  import opened Keys

  const WalletName: string := "Bitcoin"
  const WalletSymbol: string := "BTC"

  datatype Btc = Btc(name: string, symbol: string, k: Key?, addressType: AddressType)
  {
    /** `Type`: the coin type of the held key. */
    function Type(): (r: Outcome<Uint32>)
      reads k
      ensures r.Panics? <==> k == null
      ensures k != null ==> r.value == k.opt.coinType
    {
      if k == null then Panics else Returns(k.opt.coinType)
    }

    function Name(): string
    {
      name
    }

    function Symbol(): string
    {
      symbol
    }

    /** `legacy`: the pay-to-pubkey-hash address of the extended key, or ""
        when it cannot be built. */
    function Legacy(lib: Library): Outcome<string>
      reads k
    {
      if k == null then Panics
      else
        match lib.extendedAddress(k.extended, k.opt.params)
        case Err(_) => Returns("")
        case Ok(a) => Returns(lib.encodeAddress(a))
    }

    /** `taprootAddress`: re-parse the compressed public key, tweak it with
        no script, and encode the x-only key as a witness-v1 address. */
    function TaprootAddress(lib: Library): Outcome<Result<string>>
      reads k
    {
      if k == null || k.public.None? then Panics
      else
        match lib.parsePubKey(lib.serializeCompressed(k.public.value))
        case Err(e) => Returns(Err(e))
        case Ok(internal) =>
          var key := lib.serializeSchnorr(lib.computeTaprootKeyNoScript(internal));
          match lib.newAddressTaproot(key, k.opt.params)
          case Err(e) => Returns(Err(e))
          case Ok(a) => Returns(Ok(lib.encodeAddress(a)))
    }

    /** `nativeSegwit`: the witness-v0 address of hash160 of the compressed
        public key. */
    function NativeSegwit(lib: Library): Outcome<Result<string>>
      reads k
    {
      if k == null || k.public.None? then Panics
      else
        var h := lib.hash160(lib.serializeCompressed(k.public.value));
        match lib.newAddressWitnessPubKeyHash(h, k.opt.params)
        case Err(e) => Returns(Err(e))
        case Ok(w) => Returns(Ok(lib.encodeAddress(w)))
    }

    /** `nestedWit`: the P2SH address of hash160 of the P2WPKH script of the
        native segwit address. The script's error is overwritten unread, so
        a failed script is hashed as the empty (nil) script. */
    function NestedWit(lib: Library): Outcome<Result<string>>
      reads k
    {
      if k == null || k.public.None? then Panics
      else
        var h := lib.hash160(lib.serializeCompressed(k.public.value));
        match lib.newAddressWitnessPubKeyHash(h, k.opt.params)
        case Err(e) => Returns(Err(e))
        case Ok(w) =>
          var script := match lib.payToAddrScript(w) case Ok(s) => s case Err(_) => [];
          match lib.newAddressScriptHashFromHash(lib.hash160(script), k.opt.params)
          case Err(e) => Returns(Err(e))
          case Ok(a) => Returns(Ok(lib.encodeAddress(a)))
    }

    /** `AddressWithType`: legacy for tag 0, taproot for 1, native segwit for
        2, nested segwit for 3, each with its error turned into ""; "" for
        any other tag, without touching the key. */
    function AddressWithType(t: AddressType, lib: Library): (r: Outcome<string>)
      reads k
      ensures t == BTCLegacy ==> r == Legacy(lib)
      ensures t == BTCTaproot ==> r == Collapse(TaprootAddress(lib))
      ensures t == BTCNativeSegwit ==> r == Collapse(NativeSegwit(lib))
      ensures t == BTCNestedSegwit ==> r == Collapse(NestedWit(lib))
      ensures t.code > 3 ==> r == Returns("")
      ensures r.Panics? ==> k == null || (k.public.None? && t != BTCLegacy)
    {
      if t.EqualTo(BTCLegacy) then Legacy(lib)
      else if t.EqualTo(BTCTaproot) then Collapse(TaprootAddress(lib))
      else if t.EqualTo(BTCNativeSegwit) then Collapse(NativeSegwit(lib))
      else if t.EqualTo(BTCNestedSegwit) then Collapse(NestedWit(lib))
      else Returns("")
    }

    /** `Address`: the address in the wallet's own format. */
    function Address(lib: Library): (r: Outcome<string>)
      reads k
      ensures r == AddressWithType(addressType, lib)
    {
      AddressWithType(addressType, lib)
    }
  }

  /** An encoder's `(address, err)` as `AddressWithType` reports it: the
      address, or "" on any error; a panic stays a panic. */
  function Collapse(r: Outcome<Result<string>>): (s: Outcome<string>)
    ensures s.Panics? <==> r.Panics?
    ensures r.Returns? && r.value.Ok? ==> s == Returns(r.value.value)
    ensures r.Returns? && r.value.Err? ==> s == Returns("")
  {
    match r
    case Panics => Panics
    case Returns(Err(_)) => Returns("")
    case Returns(Ok(a)) => Returns(a)
  }

  /** `NewBTCFromKey`: the given key and format, named Bitcoin / BTC. */
  function NewBTCFromKey(key: Key?, addressType: AddressType): (w: Btc)
    ensures w.k == key && w.addressType == addressType
    ensures w.Name() == WalletName && w.Symbol() == WalletSymbol
  {
    Btc(WalletName, WalletSymbol, key, addressType)
  }

  // ---------------------------------------------------------------------
  // The four constructors from a master key
  // ---------------------------------------------------------------------

  /** The options a constructor asks `GetChildrenKey` for: coin type BTC
      and the given purpose. Every other field, including the rest of the
      path, keeps its default. */
  function WalletOptions(purpose: Uint32): (o: Options)
    ensures o == Defaults().(purpose := purpose)
    ensures GetPath(o) == [purpose, BTC, ZeroQuote, 0, 0]
  {
    var fs := [CoinTypeFunc(BTC), PurposeFunc(purpose)];
    assert fs[1..] == [PurposeFunc(purpose)] && fs[1..][1..] == [];
    assert Applied(Defaults(), fs[0]) == Defaults();
    assert ApplyAll(Defaults(), fs) == ApplyAll(Defaults(), fs[1..]);
    assert ApplyAll(Defaults(), fs[1..]) == ApplyAll(Defaults().(purpose := purpose), []);
    ApplyAll(Defaults(), fs)
  }

  /** The key a constructor stores: nil when the derivation from the master
      along the wallet's path failed (the error is dropped), otherwise the
      initialised child at that path. */
  ghost predicate WalletKey(lib: Library, master: ExtendedKey, purpose: Uint32, k: Key?)
    reads k
  {
    match DerivePath(lib.derive, master, GetPath(WalletOptions(purpose)))
    case Err(_) => k == null
    case Ok(x) =>
      && k != null && k.opt == WalletOptions(purpose) && k.extended == x
      && k.State() == Initialised(lib, x, Unset).0
  }

  /** Shared body of the four constructors. */
  method NewBtcFromMasterKey(lib: Library, master: Key, purpose: Uint32, addressType: AddressType)
    returns (w: Btc)
    ensures w == NewBTCFromKey(w.k, addressType)
    ensures WalletKey(lib, master.extended, purpose, w.k)
    ensures w.k != null ==> fresh(w.k)
  {
    var key, err := master.GetChildrenKey(lib, [CoinTypeFunc(BTC), PurposeFunc(purpose)]);
    w := NewBTCFromKey(key, addressType);
  }

  /** `NewBtcLegacyFromMasterKey`: purpose 44'. */
  method NewBtcLegacyFromMasterKey(lib: Library, master: Key) returns (w: Btc)
    ensures w == NewBTCFromKey(w.k, BTCLegacy)
    ensures WalletKey(lib, master.extended, ZeroQuote + 44, w.k)
    ensures w.k != null ==> fresh(w.k)
  {
    w := NewBtcFromMasterKey(lib, master, ZeroQuote + 44, BTCLegacy);
  }

  /** `NewBtcTaprootFromMasterKey`: purpose 86'. */
  method NewBtcTaprootFromMasterKey(lib: Library, master: Key) returns (w: Btc)
    ensures w == NewBTCFromKey(w.k, BTCTaproot)
    ensures WalletKey(lib, master.extended, ZeroQuote + 86, w.k)
    ensures w.k != null ==> fresh(w.k)
  {
    w := NewBtcFromMasterKey(lib, master, ZeroQuote + 86, BTCTaproot);
  }

  /** `NewBtcNativeSegwitFromMasterKey`: purpose 84'. */
  method NewBtcNativeSegwitFromMasterKey(lib: Library, master: Key) returns (w: Btc)
    ensures w == NewBTCFromKey(w.k, BTCNativeSegwit)
    ensures WalletKey(lib, master.extended, ZeroQuote + 84, w.k)
    ensures w.k != null ==> fresh(w.k)
  {
    w := NewBtcFromMasterKey(lib, master, ZeroQuote + 84, BTCNativeSegwit);
  }

  /** `NewBtcNestedSegwitFromMasterKey`: purpose 49'. */
  method NewBtcNestedSegwitFromMasterKey(lib: Library, master: Key) returns (w: Btc)
    ensures w == NewBTCFromKey(w.k, BTCNestedSegwit)
    ensures WalletKey(lib, master.extended, ZeroQuote + 49, w.k)
    ensures w.k != null ==> fresh(w.k)
  {
    w := NewBtcFromMasterKey(lib, master, ZeroQuote + 49, BTCNestedSegwit);
  }

  /** A wallet key built for an unhardened purpose n prints as
      m/n'/0'/0'/0/0. */
  lemma WalletPathString(n: Uint32)
    requires n < ZeroQuote
    ensures GetPathString(WalletOptions(ZeroQuote + n)) == "m/" + FormatUint(n) + "'/0'/0'/0/0"
  {
    var o := WalletOptions(ZeroQuote + n);
    assert Sub32(o.purpose, ZeroQuote) == n;
    assert FormatUint(0) == "0";
    GetPathStringOf(o, FormatUint(n), "0", "0", "0", "0");
  }

  /** The four constructors' paths, as BIP-0044, BIP-0086, BIP-0084 and
      BIP-0049 write the first receiving address of account 0. */
  lemma LegacyPath()
    ensures GetPathString(WalletOptions(ZeroQuote + 44)) == "m/44'/0'/0'/0/0"
  {
    WalletPathString(44);
    assert FormatUint(44) == "44";
  }

  lemma TaprootPath()
    ensures GetPathString(WalletOptions(ZeroQuote + 86)) == "m/86'/0'/0'/0/0"
  {
    WalletPathString(86);
    assert FormatUint(86) == "86";
  }

  lemma NativeSegwitPath()
    ensures GetPathString(WalletOptions(ZeroQuote + 84)) == "m/84'/0'/0'/0/0"
  {
    WalletPathString(84);
    assert FormatUint(84) == "84";
  }

  lemma NestedSegwitPath()
    ensures GetPathString(WalletOptions(ZeroQuote + 49)) == "m/49'/0'/0'/0/0"
  {
    WalletPathString(49);
    assert FormatUint(49) == "49";
  }

  // ---------------------------------------------------------------------
  // What an address result means
  // ---------------------------------------------------------------------

  /** With a key whose public key is set and an encoder that never prints
      "", `AddressWithType` gives "" exactly when the tag is unknown or the
      encoder it selects fails. */
  lemma EmptyAddressIffFailure(b: Btc, t: AddressType, lib: Library)
    requires b.k != null && b.k.public.Some?
    requires forall a :: lib.encodeAddress(a) != ""
    ensures b.AddressWithType(t, lib) == Returns("") <==>
              || t.code > 3
              || (t == BTCLegacy && lib.extendedAddress(b.k.extended, b.k.opt.params).Err?)
              || (t == BTCTaproot && b.TaprootAddress(lib).value.Err?)
              || (t == BTCNativeSegwit && b.NativeSegwit(lib).value.Err?)
              || (t == BTCNestedSegwit && b.NestedWit(lib).value.Err?)
  {
    var k := b.k;
    var params := k.opt.params;
    match lib.extendedAddress(k.extended, params) {
      case Err(_) =>
      case Ok(a) => assert lib.encodeAddress(a) != "";
    }
    match lib.parsePubKey(lib.serializeCompressed(k.public.value)) {
      case Err(_) =>
      case Ok(internal) =>
        var key := lib.serializeSchnorr(lib.computeTaprootKeyNoScript(internal));
        match lib.newAddressTaproot(key, params) {
          case Err(_) =>
          case Ok(a) => assert lib.encodeAddress(a) != "";
        }
    }
    var h := lib.hash160(lib.serializeCompressed(k.public.value));
    match lib.newAddressWitnessPubKeyHash(h, params) {
      case Err(_) =>
      case Ok(w) =>
        assert lib.encodeAddress(w) != "";
        var script := match lib.payToAddrScript(w) case Ok(s) => s case Err(_) => [];
        match lib.newAddressScriptHashFromHash(lib.hash160(script), params) {
          case Err(_) =>
          case Ok(a) => assert lib.encodeAddress(a) != "";
        }
    }
  }

  /** The legacy format is the key's own `AddressBTC`, with its error
      collapsed. */
  lemma LegacyIsAddressBTC(b: Btc, lib: Library)
    requires b.k != null
    ensures b.Legacy(lib) == Returns(match b.k.AddressBTC(lib) case Ok(s) => s case Err(_) => "")
  {
  }

  /** When the extended key's pay-to-pubkey-hash address holds hash160 of
      the compressed public key (as it does in BIP-0032 keys), the native
      segwit format is the key's own `AddressP2WPKH`. */
  lemma NativeSegwitIsAddressP2WPKH(b: Btc, lib: Library, a: Address)
    requires b.k != null && b.k.public.Some?
    requires lib.extendedAddress(b.k.extended, b.k.opt.params) == Ok(a)
    requires lib.scriptAddress(a) == lib.hash160(lib.serializeCompressed(b.k.public.value))
    ensures b.NativeSegwit(lib) == Returns(b.k.AddressP2WPKH(lib))
  {
  }

  /** Under the same hypothesis, and when the P2WPKH script of this key's
      witness address can be built and its P2SH address is the one built
      from the script's hash160, the nested segwit format is the key's own
      `AddressP2WPKHInP2SH`. */
  lemma NestedWitIsAddressP2WPKHInP2SH(b: Btc, lib: Library, a: Address)
    requires b.k != null && b.k.public.Some?
    requires lib.extendedAddress(b.k.extended, b.k.opt.params) == Ok(a)
    requires lib.scriptAddress(a) == lib.hash160(lib.serializeCompressed(b.k.public.value))
    requires var w := lib.newAddressWitnessPubKeyHash(lib.hash160(lib.serializeCompressed(b.k.public.value)), b.k.opt.params);
             w.Ok? ==>
               && lib.payToAddrScript(w.value).Ok?
               && var script := lib.payToAddrScript(w.value).value;
                  lib.newAddressScriptHash(script, b.k.opt.params)
                  == lib.newAddressScriptHashFromHash(lib.hash160(script), b.k.opt.params)
    ensures b.NestedWit(lib) == Returns(b.k.AddressP2WPKHInP2SH(lib))
  {
  }

  /** Where `AddressP2WPKHInP2SH` reports the script error, `nestedWit`
      goes on with the hash of the empty script. */
  lemma NestedWitIgnoresScriptError(b: Btc, lib: Library, w: Address)
    requires b.k != null && b.k.public.Some?
    requires lib.newAddressWitnessPubKeyHash(lib.hash160(lib.serializeCompressed(b.k.public.value)), b.k.opt.params) == Ok(w)
    requires lib.payToAddrScript(w).Err?
    ensures b.NestedWit(lib) ==
              match lib.newAddressScriptHashFromHash(lib.hash160([]), b.k.opt.params)
              case Err(e) => Returns(Err(e))
              case Ok(a) => Returns(Ok(lib.encodeAddress(a)))
  {
  }
}
