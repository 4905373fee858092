/** Constants and small value types shared by the wallet library:
    the uint32 index type with its wrap-around arithmetic, the hardened
    offset, the SLIP-44 coin types, the mnemonic languages, the network
    parameter tables (by identity only), the address-type tag, and the
    result shapes used for Go's `(value, error)` returns and for a nil
    dereference. */
module Types {

  // ---------------------------------------------------------------------
  // uint32 and its wrap-around arithmetic
  // ---------------------------------------------------------------------

  const TwoTo32: int := 0x1_0000_0000

  /** Go's `uint32`. */
  type Uint32 = x: int | 0 <= x < TwoTo32

  /** `a + b` on uint32: wraps modulo 2^32. */
  function Add32(a: Uint32, b: Uint32): Uint32
  {
    (a + b) % TwoTo32
  }

  /** `a - b` on uint32: wraps modulo 2^32. */
  function Sub32(a: Uint32, b: Uint32): Uint32
  {
    (a - b) % TwoTo32
  }

  /** Go's conversion `uint32(v)` of an int64: keeps the low 32 bits of the
      two's-complement value, which is the Euclidean remainder. */
  function TruncateToUint32(v: int): Uint32
  {
    v % TwoTo32
  }

  /** Subtracting and then adding back the same offset is the identity on
      uint32, whatever the operands; this is what lets a printed path be
      parsed back. */
  lemma AddSubCancel(a: Uint32, b: Uint32)
    ensures Add32(Sub32(a, b), b) == a
    ensures Sub32(Add32(a, b), b) == a
  {
    var s := a - b;
    if s < 0 {
      assert Sub32(a, b) == s + TwoTo32;
    } else {
      assert Sub32(a, b) == s;
    }
    var t := a + b;
    if t >= TwoTo32 {
      assert Add32(a, b) == t - TwoTo32;
    } else {
      assert Add32(a, b) == t;
    }
  }

  // ---------------------------------------------------------------------
  // Index constants (types.go)
  // ---------------------------------------------------------------------

  const Zero: Uint32 := 0
  /** The hardened-index offset of BIP-0032. */
  const ZeroQuote: Uint32 := 0x8000_0000
  const BTCToken: Uint32 := 0x1000_0000
  const ETHToken: Uint32 := 0x2000_0000

  // SLIP-0044 registered coin types, hardened.
  const BTC: Uint32 := ZeroQuote + 0
  const BTCTestnet: Uint32 := ZeroQuote + 1
  const LTC: Uint32 := ZeroQuote + 2
  const DOGE: Uint32 := ZeroQuote + 3
  const DASH: Uint32 := ZeroQuote + 5
  const ETH: Uint32 := ZeroQuote + 60
  const ETC: Uint32 := ZeroQuote + 61
  const BCH: Uint32 := ZeroQuote + 145

  // BIP-0039 wordlist names.
  const English: string := "english"
  const ChineseSimplified: string := "chinese_simplified"
  const ChineseTraditional: string := "chinese_traditional"

  // ---------------------------------------------------------------------
  // Network parameters: only which table is meant
  // ---------------------------------------------------------------------

  /** Which chaincfg table an option names: the two this repository uses,
      or any other table a caller passes in (regtest, simnet, signet, or a
      network of its own), told apart by its name. */
  datatype Params = MainNetParams | TestNet3Params | OtherParams(name: string)

  const BTCParams: Params := MainNetParams
  const BTCTestnetParams: Params := TestNet3Params
  const LTCParams: Params := MainNetParams
  const DOGEParams: Params := MainNetParams
  const DASHParams: Params := MainNetParams
  const BCHParams: Params := MainNetParams

  // ---------------------------------------------------------------------
  // Bytes, errors and results
  // ---------------------------------------------------------------------

  type Byte = b: int | 0 <= b < 256
  type Bytes = seq<Byte>

  /** Go's `error` interface: an opaque value; `nil` is `None`. */
  type Error(==)

  datatype Option<T> = None | Some(value: T)

  /** A Go `(value, error)` pair where the value is meaningless on error. */
  datatype Result<T> = Ok(value: T) | Err(error: Error)

  /** What a Go call does when it may dereference a nil pointer: it either
      returns a value or panics. */
  datatype Outcome<T> = Returns(value: T) | Panics

  // ---------------------------------------------------------------------
  // Address-type tag (wallet.go)
  // ---------------------------------------------------------------------

  /** `type AddressType uint32`. */
  datatype AddressType = AddressType(code: Uint32)
  {
    /** `EqualTo` compares the underlying uint32 values, so it coincides
        with equality of the tags themselves. */
    predicate EqualTo(t: AddressType)
      ensures EqualTo(t) <==> this == t
    {
      code == t.code
    }
  }

  const BTCLegacy: AddressType := AddressType(0)
  const BTCTaproot: AddressType := AddressType(1)
  const BTCNativeSegwit: AddressType := AddressType(2)
  const BTCNestedSegwit: AddressType := AddressType(3)
}
