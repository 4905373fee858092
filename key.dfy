/** Keys: a node of the BIP-0032 key tree together with the options it was
    built from, how a master key is made from a seed or a mnemonic, how a
    child is derived along the five BIP-0044 path levels, and the address
    helpers of a key. The cryptography (BIP-0039 seed stretching, BIP-0032
    derivation, secp256k1, hashing and the address encodings) lives in
    libraries outside this code; it is given as the fields of `Library`,
    every one of which may fail where the library's may. */
module Keys {
  import opened Types
  import opened KeyOptions

  /** hdkeychain's extended key, btcec's key types and btcutil's address
      values, left abstract. */
  type ExtendedKey(==)
  type PrivateKey(==)
  type PublicKey(==)
  type Address(==)
  type Scalar(==)
  type EcdsaPublicKey(==)

  /** crypto/ecdsa's private key embeds its public key. */
  datatype EcdsaPrivateKey = EcdsaPrivateKey(publicKey: EcdsaPublicKey, d: Scalar)

  /** The library calls this code makes. */
  datatype Library = Library(
    // go-bip39: NewSeed(mnemonic, password, language)
    newSeed: (string, string, string) -> Result<Bytes>,
    // hdkeychain
    newMaster: (Bytes, Params) -> Result<ExtendedKey>,
    derive: (ExtendedKey, Uint32) -> Result<ExtendedKey>,
    ecPrivKey: ExtendedKey -> Result<PrivateKey>,
    ecPubKey: ExtendedKey -> Result<PublicKey>,
    extendedAddress: (ExtendedKey, Params) -> Result<Address>,
    // btcec
    toEcdsa: PrivateKey -> EcdsaPrivateKey,
    serializeCompressed: PublicKey -> Bytes,
    parsePubKey: Bytes -> Result<PublicKey>,
    serializeSchnorr: PublicKey -> Bytes,
    // btcutil and txscript
    hash160: Bytes -> Bytes,
    encodeAddress: Address -> string,
    scriptAddress: Address -> Bytes,
    newAddressWitnessPubKeyHash: (Bytes, Params) -> Result<Address>,
    newAddressScriptHash: (Bytes, Params) -> Result<Address>,
    newAddressScriptHashFromHash: (Bytes, Params) -> Result<Address>,
    newAddressTaproot: (Bytes, Params) -> Result<Address>,
    payToAddrScript: Address -> Result<Bytes>,
    computeTaprootKeyNoScript: PublicKey -> PublicKey)

  // ---------------------------------------------------------------------
  // Deriving along a path
  // ---------------------------------------------------------------------

  /** Derive once per index, left to right; the first error is the result. */
  function DerivePath(derive: (ExtendedKey, Uint32) -> Result<ExtendedKey>, x: ExtendedKey, path: seq<Uint32>)
    : Result<ExtendedKey>
    decreases |path|
  {
    if path == [] then Ok(x)
    else match derive(x, path[0])
      case Err(e) => Err(e)
      case Ok(y) => DerivePath(derive, y, path[1..])
  }

  /** Deriving along p + q is deriving along p, then along q from there; an
      error on p is the result. */
  lemma {:induction false} DerivePathAppend(derive: (ExtendedKey, Uint32) -> Result<ExtendedKey>,
                                            x: ExtendedKey, p: seq<Uint32>, q: seq<Uint32>)
    ensures DerivePath(derive, x, p + q) ==
              match DerivePath(derive, x, p)
              case Err(e) => Err(e)
              case Ok(y) => DerivePath(derive, y, q)
    decreases |p|
  {
    if p == [] {
      assert p + q == q;
    } else {
      assert (p + q)[0] == p[0];
      assert (p + q)[1..] == p[1..] + q;
      match derive(x, p[0])
      case Err(e) =>
      case Ok(y) => DerivePathAppend(derive, y, p[1..], q);
    }
  }

  /** A failed derivation failed at one index k: the indices before it all
      derived, and the error is the one `derive` gave at k; no later index
      is used (with DerivePathAppend, anything after path[..k + 1] is
      ignored). */
  lemma {:induction false} DerivePathFirstError(derive: (ExtendedKey, Uint32) -> Result<ExtendedKey>,
                                                x: ExtendedKey, path: seq<Uint32>)
    returns (k: nat, y: ExtendedKey)
    requires DerivePath(derive, x, path).Err?
    ensures k < |path|
    ensures DerivePath(derive, x, path[..k]) == Ok(y)
    ensures derive(y, path[k]) == Err(DerivePath(derive, x, path).error)
    ensures DerivePath(derive, x, path[..k + 1]) == DerivePath(derive, x, path)
    decreases |path|
  {
    match derive(x, path[0])
    case Err(e) =>
      k, y := 0, x;
      assert path[..0] == [];
      assert path[..1][0] == path[0];
    case Ok(z) =>
      var k', y' := DerivePathFirstError(derive, z, path[1..]);
      k, y := k' + 1, y';
      assert path[..k][0] == path[0];
      assert path[..k][1..] == path[1..][..k'];
      assert path[1..][k'] == path[k];
      assert path[..k + 1][0] == path[0];
      assert path[..k + 1][1..] == path[1..][..k' + 1];
  }

  // ---------------------------------------------------------------------
  // The key fields `init` fills in
  // ---------------------------------------------------------------------

  datatype KeyState = KeyState(
    private: Option<PrivateKey>,
    public: Option<PublicKey>,
    privateEcdsa: Option<EcdsaPrivateKey>,
    publicEcdsa: Option<EcdsaPublicKey>)

  /** The fields of a freshly built `Key` literal: all nil. */
  const Unset: KeyState := KeyState(None, None, None, None)

  /** The ECDSA public key is the one embedded in the ECDSA private key. */
  predicate EcdsaPaired(s: KeyState)
  {
    s.publicEcdsa.Some? ==> s.privateEcdsa.Some? && s.publicEcdsa.value == s.privateEcdsa.value.publicKey
  }

  /** What `init` leaves in the key fields, starting from s, and the error
      it returns. A failed call stores nil in the field it assigns. */
  function Initialised(lib: Library, x: ExtendedKey, s: KeyState): (KeyState, Option<Error>)
  {
    match lib.ecPrivKey(x)
    case Err(e) => (s.(private := None), Some(e))
    case Ok(sk) =>
      match lib.ecPubKey(x)
      case Err(e) => (s.(private := Some(sk), public := None), Some(e))
      case Ok(pk) =>
        var ek := lib.toEcdsa(sk);
        (KeyState(Some(sk), Some(pk), Some(ek), Some(ek.publicKey)), None)
  }

  /** `init` reports no error exactly when both keys were extracted, and then
      every field is set; a private-key failure returns before the public
      key is touched; the ECDSA pair stays consistent. */
  lemma InitialisedFacts(lib: Library, x: ExtendedKey, s: KeyState)
    ensures var (t, err) := Initialised(lib, x, s);
            && (err.None? <==> lib.ecPrivKey(x).Ok? && lib.ecPubKey(x).Ok?)
            && (err.None? ==> t.private.Some? && t.public.Some? && t.privateEcdsa.Some? && t.publicEcdsa.Some?)
            && (lib.ecPrivKey(x).Err? ==> err == Some(lib.ecPrivKey(x).error) && t.private.None? && t.public == s.public)
            && (EcdsaPaired(s) ==> EcdsaPaired(t))
            && (err.None? ==> t.privateEcdsa == Some(lib.toEcdsa(t.private.value)))
  {
  }

  // ---------------------------------------------------------------------
  // The Key object
  // ---------------------------------------------------------------------

  class Key {
    var opt: Options
    var extended: ExtendedKey
    var private: Option<PrivateKey>
    var public: Option<PublicKey>
    var privateEcdsa: Option<EcdsaPrivateKey>
    var publicEcdsa: Option<EcdsaPublicKey>

    function State(): KeyState
      reads this
    {
      KeyState(private, public, privateEcdsa, publicEcdsa)
    }

    /** The literal `&Key{Opt: o, Extended: x}`. */
    constructor (o: Options, x: ExtendedKey)
      ensures opt == o && extended == x && State() == Unset
    {
      opt := o;
      extended := x;
      private, public, privateEcdsa, publicEcdsa := None, None, None, None;
    }

    /** `init`: extract the private key, then the public key, then the ECDSA
        pair, stopping at the first error. */
    method Init(lib: Library) returns (err: Option<Error>)
      modifies this
      ensures opt == old(opt) && extended == old(extended)
      ensures (State(), err) == Initialised(lib, extended, old(State()))
    {
      var sk := lib.ecPrivKey(extended);
      private := if sk.Ok? then Some(sk.value) else None;
      if sk.Err? {
        return Some(sk.error);
      }
      var pk := lib.ecPubKey(extended);
      public := if pk.Ok? then Some(pk.value) else None;
      if pk.Err? {
        return Some(pk.error);
      }
      var ek := lib.toEcdsa(sk.value);
      privateEcdsa := Some(ek);
      publicEcdsa := Some(ek.publicKey);
      return None;
    }

    /** `GetChildrenKey`: fresh options from opts alone (not this key's),
        derivation from this key along their five indices, stopping at the
        first error with no key; otherwise a new initialised key, returned
        with init's error if any. This key is not modified. */
    method GetChildrenKey(lib: Library, opts: seq<OptionFunc>) returns (child: Key?, err: Option<Error>)
      ensures var o := ApplyAll(Defaults(), opts);
              match DerivePath(lib.derive, extended, GetPath(o))
              case Err(e) => child == null && err == Some(e)
              case Ok(x) =>
                && child != null && fresh(child)
                && child.opt == o && child.extended == x
                && (child.State(), err) == Initialised(lib, x, Unset)
    {
      var ko := NewKeyOption(opts);
      var o := ko.Value();
      var path := GetPath(o);
      var ext := extended;
      for i := 0 to |path|
        invariant DerivePath(lib.derive, extended, path) == DerivePath(lib.derive, ext, path[i..])
      {
        assert path[i..][0] == path[i] && path[i..][1..] == path[i + 1..];
        var r := lib.derive(ext, path[i]);
        if r.Err? {
          return null, Some(r.error);
        }
        ext := r.value;
      }
      assert path[|path|..] == [];
      child := new Key(o, ext);
      err := child.Init(lib);
    }

    /** `PublicHash`: the hash inside the key's pay-to-pubkey-hash address. */
    function PublicHash(lib: Library): Result<Bytes>
      reads this
    {
      match lib.extendedAddress(extended, opt.params)
      case Err(e) => Err(e)
      case Ok(a) => Ok(lib.scriptAddress(a))
    }

    /** `AddressBTC`: the key's pay-to-pubkey-hash address. It is built
        from the same address as the public hash, so the two fail together
        and with the same error. */
    function AddressBTC(lib: Library): (r: Result<string>)
      reads this
      ensures r.Ok? <==> PublicHash(lib).Ok?
      ensures r.Err? ==> r.error == PublicHash(lib).error
      ensures r.Ok? ==> r.value == lib.encodeAddress(lib.extendedAddress(extended, opt.params).value)
    {
      match lib.extendedAddress(extended, opt.params)
      case Err(e) => Err(e)
      case Ok(a) => Ok(lib.encodeAddress(a))
    }

    /** `AddressP2WPKH`: the encoded witness-v0 address of the public
        hash; an error of either stage is returned as it is. */
    function AddressP2WPKH(lib: Library): (r: Result<string>)
      reads this
      ensures PublicHash(lib).Err? ==> r == Err(PublicHash(lib).error)
      ensures PublicHash(lib).Ok? ==>
                var w := lib.newAddressWitnessPubKeyHash(PublicHash(lib).value, opt.params);
                && (w.Err? ==> r == Err(w.error))
                && (w.Ok? ==> r == Ok(lib.encodeAddress(w.value)))
      ensures r.Ok? <==>
                PublicHash(lib).Ok? && lib.newAddressWitnessPubKeyHash(PublicHash(lib).value, opt.params).Ok?
    {
      match PublicHash(lib)
      case Err(e) => Err(e)
      case Ok(h) =>
        match lib.newAddressWitnessPubKeyHash(h, opt.params)
        case Err(e) => Err(e)
        case Ok(w) => Ok(lib.encodeAddress(w))
    }

    /** `AddressP2WPKHInP2SH`: the P2SH address of the P2WPKH script of the
        public hash. It fails exactly when one of its four stages fails, and
        then with that stage's error; its first two stages are those of
        AddressP2WPKH; on success it is the encoded script-hash address. */
    function AddressP2WPKHInP2SH(lib: Library): (r: Result<string>)
      reads this
      ensures AddressP2WPKH(lib).Err? ==> r == AddressP2WPKH(lib)
      ensures AddressP2WPKH(lib).Ok? ==>
                var w := lib.newAddressWitnessPubKeyHash(PublicHash(lib).value, opt.params).value;
                var script := lib.payToAddrScript(w);
                && (script.Err? ==> r == Err(script.error))
                && (script.Ok? ==>
                      var a := lib.newAddressScriptHash(script.value, opt.params);
                      && (a.Err? ==> r == Err(a.error))
                      && (a.Ok? ==> r == Ok(lib.encodeAddress(a.value))))
      ensures r.Ok? <==>
                && PublicHash(lib).Ok?
                && lib.newAddressWitnessPubKeyHash(PublicHash(lib).value, opt.params).Ok?
                && lib.payToAddrScript(lib.newAddressWitnessPubKeyHash(PublicHash(lib).value, opt.params).value).Ok?
                && lib.newAddressScriptHash(
                     lib.payToAddrScript(lib.newAddressWitnessPubKeyHash(PublicHash(lib).value, opt.params).value).value,
                     opt.params).Ok?
    {
      match PublicHash(lib)
      case Err(e) => Err(e)
      case Ok(h) =>
        match lib.newAddressWitnessPubKeyHash(h, opt.params)
        case Err(e) => Err(e)
        case Ok(w) =>
          match lib.payToAddrScript(w)
          case Err(e) => Err(e)
          case Ok(script) =>
            match lib.newAddressScriptHash(script, opt.params)
            case Err(e) => Err(e)
            case Ok(a) => Ok(lib.encodeAddress(a))
    }
  }

  /** `NewMasterKey`: options from opts; the explicit seed if it is
      non-empty, otherwise the mnemonic's seed (an error gives no key); the
      master extended key (an error gives no key); then a new initialised
      key, returned with init's error if any. */
  method NewMasterKey(lib: Library, opts: seq<OptionFunc>) returns (key: Key?, err: Option<Error>)
    ensures var o := ApplyAll(Defaults(), opts);
            var seed := if |o.seed| > 0 then Ok(o.seed) else lib.newSeed(o.mnemonic, o.password, o.language);
            match seed
            case Err(e) => key == null && err == Some(e)
            case Ok(s) =>
              match lib.newMaster(s, o.params)
              case Err(e) => key == null && err == Some(e)
              case Ok(x) =>
                && key != null && fresh(key)
                && key.opt == o.(seed := s) && key.extended == x
                && (key.State(), err) == Initialised(lib, x, Unset)
  {
    var ko := NewKeyOption(opts);
    if |ko.seed| <= 0 {
      var r := lib.newSeed(ko.mnemonic, ko.password, ko.language);
      ko.seed := if r.Ok? then r.value else [];
      if r.Err? {
        return null, Some(r.error);
      }
    }
    var m := lib.newMaster(ko.seed, ko.params);
    if m.Err? {
      return null, Some(m.error);
    }
    key := new Key(ko.Value(), m.value);
    err := key.Init(lib);
  }
}
