/** Key options: the settings a master or child key is built from (network,
    mnemonic, password, wordlist language, seed and the five BIP-0044 path
    levels), their defaults, the option setters that are applied to them
    in order, and the codec between a path string such as
    `m/44'/0'/0'/0/0` and the five uint32 path indices. A path level
    written with a trailing `'` is hardened: BIP-0032 adds 2^31 to it. */
module KeyOptions {
  import opened Types
  import opened GoStrings

  /** The `KeyOption` struct as a value. An empty seed stands for Go's nil
      slice (both have length 0). */
  datatype Options = Options(
    params: Params,
    mnemonic: string,
    password: string,
    language: string,
    seed: Bytes,
    purpose: Uint32,
    coinType: Uint32,
    account: Uint32,
    change: Uint32,
    addressIndex: Uint32)

  // The defaults block.
  const DefaultParams: Params := BTCParams
  const DefaultPassword: string := ""
  const DefaultLanguage: string := English
  const DefaultPurpose: Uint32 := ZeroQuote + 44
  const DefaultCoinType: Uint32 := BTC
  const DefaultAccount: Uint32 := ZeroQuote
  const DefaultChange: Uint32 := Zero
  const DefaultAddressIndex: Uint32 := Zero

  /** The struct literal `newKeyOption` starts from: every field not listed
      there has Go's zero value. */
  function Defaults(): (o: Options)
    ensures GetPath(o) == [ZeroQuote + 44, BTC, ZeroQuote, 0, 0]
    ensures o.params == MainNetParams && o.language == English
    ensures o.mnemonic == "" && o.password == "" && o.seed == []
  {
    Options(DefaultParams, "", DefaultPassword, DefaultLanguage, [],
            DefaultPurpose, DefaultCoinType, DefaultAccount, DefaultChange, DefaultAddressIndex)
  }

  /** The closures returned by the option constructors, one alternative per
      constructor, named as they are. */
  datatype OptionFunc =
    | ParamsFunc(params: Params)
    | MnemonicFunc(mnemonic: string)
    | PasswordFunc(password: string)
    | LanguageFunc(language: string)
    | SeedFunc(seed: Bytes)
    | PurposeFunc(purpose: Uint32)
    | CoinTypeFunc(coinType: Uint32)
    | AccountFunc(account: Uint32)
    | ChangeFunc(change: Uint32)
    | AddressIndexFunc(addressIndex: Uint32)
    | PathFunc(path: string)

  // ---------------------------------------------------------------------
  // The path codec
  // ---------------------------------------------------------------------

  /** One path level: the decimal before an optional trailing `'` (a
      malformed number counts as 0, an out-of-range one as the int64 bound),
      truncated to uint32, plus 2^31 modulo 2^32 when the `'` is there. */
  function PathNumber(str: string): Uint32
  {
    var num := TruncateToUint32(ParseInt(TrimSuffix(str, "'")));
    if HasSuffix(str, "'") then Add32(num, ZeroQuote) else num
  }

  /** The pieces `PathFunc` reads: at most one leading `m/` removed, then
      split at every `/`. */
  function PathSegments(path: string): (segs: seq<string>)
    ensures |segs| >= 1
  {
    Split(TrimPrefix(path, "m/"), '/')
  }

  /** The derivation indices in BIP-0044 level order. */
  function GetPath(o: Options): (p: seq<Uint32>)
    ensures |p| == 5
    ensures p[0] == o.purpose && p[1] == o.coinType && p[2] == o.account
    ensures p[3] == o.change && p[4] == o.addressIndex
  {
    [o.purpose, o.coinType, o.account, o.change, o.addressIndex]
  }

  /** The path as text: the first three levels minus 2^31 (modulo 2^32) and
      marked `'`, the last two as they are. */
  function GetPathString(o: Options): string
  {
    "m/" + FormatUint(Sub32(o.purpose, ZeroQuote)) + "'/"
         + FormatUint(Sub32(o.coinType, ZeroQuote)) + "'/"
         + FormatUint(Sub32(o.account, ZeroQuote)) + "'/"
         + FormatUint(o.change) + "/"
         + FormatUint(o.addressIndex)
  }

  // ---------------------------------------------------------------------
  // Applying options
  // ---------------------------------------------------------------------

  /** What one option closure does to the options. PathFunc writes only
      the five path levels, and nothing at all unless the path has exactly
      five pieces. */
  function Applied(o: Options, f: OptionFunc): (r: Options)
    ensures f.PathFunc? ==>
              r.(purpose := o.purpose, coinType := o.coinType, account := o.account,
                 change := o.change, addressIndex := o.addressIndex) == o
    ensures f.PathFunc? && |PathSegments(f.path)| != 5 ==> r == o
  {
    match f
    case ParamsFunc(p) => o.(params := p)
    case MnemonicFunc(m) => o.(mnemonic := m)
    case PasswordFunc(p) => o.(password := p)
    case LanguageFunc(l) => o.(language := l)
    case SeedFunc(s) => o.(seed := s)
    case PurposeFunc(n) => o.(purpose := n)
    case CoinTypeFunc(n) => o.(coinType := n)
    case AccountFunc(n) => o.(account := n)
    case ChangeFunc(n) => o.(change := n)
    case AddressIndexFunc(n) => o.(addressIndex := n)
    case PathFunc(path) =>
      var segs := PathSegments(path);
      if |segs| != 5 then o
      else o.(purpose := PathNumber(segs[0]), coinType := PathNumber(segs[1]),
              account := PathNumber(segs[2]), change := PathNumber(segs[3]),
              addressIndex := PathNumber(segs[4]))
  }

  /** The options closures give when applied left to right. */
  function ApplyAll(o: Options, fs: seq<OptionFunc>): Options
    decreases |fs|
  {
    if fs == [] then o else ApplyAll(Applied(o, fs[0]), fs[1..])
  }

  /** The `KeyOption` struct, updated in place by the option closures. */
  class KeyOption {
    var params: Params
    var mnemonic: string
    var password: string
    var language: string
    var seed: Bytes
    var purpose: Uint32
    var coinType: Uint32
    var account: Uint32
    var change: Uint32
    var addressIndex: Uint32

    function Value(): Options
      reads this
    {
      Options(params, mnemonic, password, language, seed,
              purpose, coinType, account, change, addressIndex)
    }

    /** The defaults literal at the start of `newKeyOption`. */
    constructor ()
      ensures Value() == Defaults()
    {
      params := DefaultParams;
      mnemonic := "";
      password := DefaultPassword;
      language := DefaultLanguage;
      seed := [];
      purpose := DefaultPurpose;
      coinType := DefaultCoinType;
      account := DefaultAccount;
      change := DefaultChange;
      addressIndex := DefaultAddressIndex;
    }

    /** Calls one option closure on this struct. */
    method Apply(f: OptionFunc)
      modifies this
      ensures Value() == Applied(old(Value()), f)
    {
      match f
      case ParamsFunc(p) => params := p;
      case MnemonicFunc(m) => mnemonic := m;
      case PasswordFunc(p) => password := p;
      case LanguageFunc(l) => language := l;
      case SeedFunc(s) => seed := s;
      case PurposeFunc(n) => purpose := n;
      case CoinTypeFunc(n) => coinType := n;
      case AccountFunc(n) => account := n;
      case ChangeFunc(n) => change := n;
      case AddressIndexFunc(n) => addressIndex := n;
      case PathFunc(path) => ApplyPath(path);
    }

    /** The body of the closure `PathFunc(path)` returns: with exactly five
        pieces it overwrites the five path levels, otherwise it does
        nothing. */
    method ApplyPath(path: string)
      modifies this
      ensures Value() == Applied(old(Value()), PathFunc(path))
      ensures |PathSegments(path)| != 5 ==> Value() == old(Value())
    {
      var trimmed := TrimPrefix(path, "m/");
      var paths := Split(trimmed, '/');
      if |paths| != 5 {
        return;
      }
      purpose := PathNumber(paths[0]);
      coinType := PathNumber(paths[1]);
      account := PathNumber(paths[2]);
      change := PathNumber(paths[3]);
      addressIndex := PathNumber(paths[4]);
    }
  }

  /** `newKeyOption`: the defaults, then every option closure in turn. */
  method NewKeyOption(opts: seq<OptionFunc>) returns (opt: KeyOption)
    ensures fresh(opt)
    ensures opt.Value() == ApplyAll(Defaults(), opts)
  {
    opt := new KeyOption();
    for i := 0 to |opts|
      invariant ApplyAll(opt.Value(), opts[i..]) == ApplyAll(Defaults(), opts)
    {
      assert opts[i..][1..] == opts[i + 1..];
      opt.Apply(opts[i]);
    }
  }

  // ---------------------------------------------------------------------
  // Properties of one path level
  // ---------------------------------------------------------------------

  /** A level without `'`: its int64 value truncated to uint32. */
  lemma PathNumberPlain(s: string)
    requires !HasSuffix(s, "'")
    ensures PathNumber(s) == TruncateToUint32(ParseInt(s))
  {
  }

  /** A level ending in `'`: exactly one `'` is removed, the rest is read as
      an int64 and truncated, and 2^31 is added modulo 2^32. */
  lemma PathNumberHardened(s: string)
    ensures PathNumber(s + "'") == Add32(TruncateToUint32(ParseInt(s)), ZeroQuote)
  {
    var t := s + "'";
    assert HasSuffix(t, "'") by { assert t[|t| - 1..] == "'"; }
    assert TrimSuffix(t, "'") == s;
  }

  /** Printed levels read back: `%d` of x gives x, and with `'` gives x plus
      2^31 modulo 2^32. */
  lemma PathNumberOfFormat(x: Uint32)
    ensures PathNumber(FormatUint(x)) == x
    ensures PathNumber(FormatUint(x) + "'") == Add32(x, ZeroQuote)
  {
    var d := FormatUint(x);
    ParseIntFormatUint(x);
    assert IsDigit(d[|d| - 1]);
    assert d[|d| - 1..] == [d[|d| - 1]];
    assert TrimSuffix(d, "'") == d;
    assert TruncateToUint32(ParseInt(d)) == x;
    PathNumberHardened(d);
  }

  /** The documented values of one level: `44'` is 0x8000002C and `0'`
      is 0x80000000. */
  lemma PathNumberExamples()
    ensures PathNumber("44'") == 0x8000_002C
    ensures PathNumber("0'") == 0x8000_0000
    ensures PathNumber("44") == 44
  {
    assert FormatUint(4) == "4";
    assert FormatUint(44) == "44";
    assert FormatUint(0) == "0";
    PathNumberOfFormat(44);
    PathNumberOfFormat(0);
    assert FormatUint(44) + "'" == "44'";
    assert FormatUint(0) + "'" == "0'";
  }

  /** A malformed level (one that starts with neither a digit nor a sign)
      reads as 0 before the hardened offset: "x'" is 0x80000000 and "x"
      is 0. */
  lemma PathNumberMalformed(s: string)
    requires s != [] && !IsDigit(s[0]) && s[0] != '+' && s[0] != '-'
    ensures PathNumber(s + "'") == ZeroQuote
    ensures !HasSuffix(s, "'") ==> PathNumber(s) == 0
  {
    ParseIntSyntaxError("", s, 0);
    assert "" + s == s;
    PathNumberHardened(s);
  }

  /** Only one trailing `'` is removed: a printed value followed by two
      quotes ("44''") leaves a quote after the digits, which is a syntax
      error, so it reads as 0x80000000. */
  lemma PathNumberDoubleQuote(n: Uint32)
    ensures PathNumber(FormatUint(n) + "''") == ZeroQuote
  {
    var d := FormatUint(n);
    var s := d + "'";
    assert s + "'" == d + "''";
    assert s[..|d|] == d && s[|d|] == '\'';
    assert s[0] == d[0] && IsDigit(d[0]);
    ParseIntSyntaxError("", s, |d|);
    assert "" + s == s;
    PathNumberHardened(s);
  }

  /** Levels outside uint32 wrap: a printed value up to MaxInt64 reads as
      itself modulo 2^32 (so 2^32 + 44 reads as 44). */
  lemma PathNumberWraps(n: nat)
    requires n <= MaxInt64
    ensures PathNumber(FormatUint(n)) == n % TwoTo32
  {
    var d := FormatUint(n);
    ParseIntFormatUint(n);
    assert IsDigit(d[|d| - 1]);
    assert d[|d| - 1..] == [d[|d| - 1]];
    PathNumberPlain(d);
  }

  /** A negative level wraps too: -1 reads as 0xFFFFFFFF. */
  lemma PathNumberNegative()
    ensures PathNumber("-1") == 0xFFFF_FFFF
  {
    ParseIntDecimal("-", "1");
    assert "-" + "1" == "-1";
    assert !HasSuffix("-1", "'");
  }

  // ---------------------------------------------------------------------
  // Properties of PathFunc and GetPathString
  // ---------------------------------------------------------------------

  /** With exactly five pieces, PathFunc sets the five levels to the pieces
      read in order (what it leaves alone is in Applied's contract). */
  lemma PathFuncEffect(o: Options, path: string)
    requires |PathSegments(path)| == 5
    ensures forall k :: 0 <= k < 5 ==>
              GetPath(Applied(o, PathFunc(path)))[k] == PathNumber(PathSegments(path)[k])
  {
  }

  /** A path written as `m/A'/B'/C'/D/E`, with no `/` inside the levels,
      splits into its five levels. */
  lemma {:induction false} SegmentsOfFive(a: string, b: string, c: string, d: string, e: string)
    requires '/' !in a && '/' !in b && '/' !in c && '/' !in d && '/' !in e
    ensures PathSegments("m/" + a + "'/" + b + "'/" + c + "'/" + d + "/" + e) ==
              [a + "'", b + "'", c + "'", d, e]
  {
    var s := "m/" + a + "'/" + b + "'/" + c + "'/" + d + "/" + e;
    var parts := [a + "'", b + "'", c + "'", d, e];
    var body := (a + "'") + "/" + (b + "'") + "/" + (c + "'") + "/" + d + "/" + e;
    assert s == "m/" + body;
    JoinFive(a + "'", b + "'", c + "'", d, e);
    assert s[..2] == "m/" && s[2..] == body;
    assert TrimPrefix(s, "m/") == body;
    assert forall k :: 0 <= k < 5 ==> '/' !in parts[k];
    SplitJoin(parts, '/');
  }

  /** The text of a path, split the way PathFunc splits it, gives the five
      printed levels. */
  lemma PathStringSegments(o: Options)
    ensures PathSegments(GetPathString(o)) ==
              [FormatUint(Sub32(o.purpose, ZeroQuote)) + "'",
               FormatUint(Sub32(o.coinType, ZeroQuote)) + "'",
               FormatUint(Sub32(o.account, ZeroQuote)) + "'",
               FormatUint(o.change),
               FormatUint(o.addressIndex)]
  {
    var a := FormatUint(Sub32(o.purpose, ZeroQuote));
    var b := FormatUint(Sub32(o.coinType, ZeroQuote));
    var c := FormatUint(Sub32(o.account, ZeroQuote));
    var d := FormatUint(o.change);
    var e := FormatUint(o.addressIndex);
    DigitsHaveNoMarks(a);
    DigitsHaveNoMarks(b);
    DigitsHaveNoMarks(c);
    DigitsHaveNoMarks(d);
    DigitsHaveNoMarks(e);
    SegmentsOfFive(a, b, c, d, e);
  }

  /** Round trip: parsing the printed path of o restores all five levels
      of o, over any options, whatever their values. */
  lemma PathStringRoundTrip(o: Options, target: Options)
    ensures Applied(target, PathFunc(GetPathString(o))) ==
              target.(purpose := o.purpose, coinType := o.coinType, account := o.account,
                      change := o.change, addressIndex := o.addressIndex)
    ensures Applied(o, PathFunc(GetPathString(o))) == o
  {
    PathStringSegments(o);
    var segs := PathSegments(GetPathString(o));
    PathNumberOfFormat(Sub32(o.purpose, ZeroQuote));
    PathNumberOfFormat(Sub32(o.coinType, ZeroQuote));
    PathNumberOfFormat(Sub32(o.account, ZeroQuote));
    PathNumberOfFormat(o.change);
    PathNumberOfFormat(o.addressIndex);
    AddSubCancel(o.purpose, ZeroQuote);
    AddSubCancel(o.coinType, ZeroQuote);
    AddSubCancel(o.account, ZeroQuote);
    var numbers := [PathNumber(segs[0]), PathNumber(segs[1]), PathNumber(segs[2]),
                    PathNumber(segs[3]), PathNumber(segs[4])];
    assert numbers == GetPath(o);
    AppliedPathFunc(target, GetPathString(o));
    AppliedPathFunc(o, GetPathString(o));
  }

  /** With five pieces, PathFunc sets the five levels to the pieces read in
      order and leaves the rest. */
  lemma AppliedPathFunc(o: Options, path: string)
    requires |PathSegments(path)| == 5
    ensures var segs := PathSegments(path);
            Applied(o, PathFunc(path)) ==
              o.(purpose := PathNumber(segs[0]), coinType := PathNumber(segs[1]),
                 account := PathNumber(segs[2]), change := PathNumber(segs[3]),
                 addressIndex := PathNumber(segs[4]))
  {
  }

  lemma JoinFive(a: string, b: string, c: string, d: string, e: string)
    ensures Join([a, b, c, d, e], '/') == a + "/" + b + "/" + c + "/" + d + "/" + e
  {
    var parts := [a, b, c, d, e];
    assert parts[1..] == [b, c, d, e];
    assert parts[1..][1..] == [c, d, e];
    assert parts[1..][1..][1..] == [d, e];
    assert parts[1..][1..][1..][1..] == [e];
    assert Join([d, e], '/') == d + "/" + e;
    assert Join([c, d, e], '/') == c + "/" + (d + "/" + e);
    assert Join([b, c, d, e], '/') == b + "/" + (c + "/" + (d + "/" + e));
    assert Join(parts, '/') == a + "/" + (b + "/" + (c + "/" + (d + "/" + e)));
  }

  /** The other round trip: a path written canonically, with its first
      three levels hardened, is printed back exactly as written once parsed.
      Every canonical decimal is `%d` of its value (FormatUintOfCanonical),
      so the levels are given here by their values. */
  lemma CanonicalPathRoundTrip(o: Options, a: Uint32, b: Uint32, c: Uint32, d: Uint32, e: Uint32)
    ensures var s := "m/" + FormatUint(a) + "'/" + FormatUint(b) + "'/" + FormatUint(c) + "'/"
                     + FormatUint(d) + "/" + FormatUint(e);
            GetPathString(Applied(o, PathFunc(s))) == s
  {
    var p := o.(purpose := Add32(a, ZeroQuote), coinType := Add32(b, ZeroQuote),
                account := Add32(c, ZeroQuote), change := d, addressIndex := e);
    AddSubCancel(a, ZeroQuote);
    AddSubCancel(b, ZeroQuote);
    AddSubCancel(c, ZeroQuote);
    GetPathStringOf(p, FormatUint(a), FormatUint(b), FormatUint(c), FormatUint(d), FormatUint(e));
    PathStringRoundTrip(p, o);
  }

  lemma GetPathStringOf(o: Options, a: string, b: string, c: string, d: string, e: string)
    requires FormatUint(Sub32(o.purpose, ZeroQuote)) == a && FormatUint(Sub32(o.coinType, ZeroQuote)) == b
    requires FormatUint(Sub32(o.account, ZeroQuote)) == c
    requires FormatUint(o.change) == d && FormatUint(o.addressIndex) == e
    ensures GetPathString(o) == "m/" + a + "'/" + b + "'/" + c + "'/" + d + "/" + e
  {
  }

  /** The path of the default options prints as the BIP-0044 first Bitcoin
      address. */
  lemma DefaultPathString()
    ensures GetPathString(Defaults()) == "m/44'/0'/0'/0/0"
  {
    assert FormatUint(44) == "44";
    assert FormatUint(0) == "0";
  }

  // ---------------------------------------------------------------------
  // Properties of applying several options
  // ---------------------------------------------------------------------

  datatype Field =
    | ParamsField | MnemonicField | PasswordField | LanguageField | SeedField
    | PurposeField | CoinTypeField | AccountField | ChangeField | AddressIndexField

  datatype FieldValue =
    | ParamsValue(params: Params)
    | TextValue(text: string)
    | BytesValue(bytes: Bytes)
    | IndexValue(index: Uint32)

  function Get(o: Options, fld: Field): FieldValue
  {
    match fld
    case ParamsField => ParamsValue(o.params)
    case MnemonicField => TextValue(o.mnemonic)
    case PasswordField => TextValue(o.password)
    case LanguageField => TextValue(o.language)
    case SeedField => BytesValue(o.seed)
    case PurposeField => IndexValue(o.purpose)
    case CoinTypeField => IndexValue(o.coinType)
    case AccountField => IndexValue(o.account)
    case ChangeField => IndexValue(o.change)
    case AddressIndexField => IndexValue(o.addressIndex)
  }

  predicate IsPathLevel(fld: Field)
  {
    fld.PurposeField? || fld.CoinTypeField? || fld.AccountField? || fld.ChangeField? || fld.AddressIndexField?
  }

  /** Whether an option closure writes a field. */
  predicate Touches(f: OptionFunc, fld: Field)
  {
    match f
    case ParamsFunc(_) => fld == ParamsField
    case MnemonicFunc(_) => fld == MnemonicField
    case PasswordFunc(_) => fld == PasswordField
    case LanguageFunc(_) => fld == LanguageField
    case SeedFunc(_) => fld == SeedField
    case PurposeFunc(_) => fld == PurposeField
    case CoinTypeFunc(_) => fld == CoinTypeField
    case AccountFunc(_) => fld == AccountField
    case ChangeFunc(_) => fld == ChangeField
    case AddressIndexFunc(_) => fld == AddressIndexField
    case PathFunc(p) => |PathSegments(p)| == 5 && IsPathLevel(fld)
  }

  /** A closure leaves the fields it does not touch alone, and what it
      writes into a field it touches does not depend on the options it is
      applied to. */
  lemma AppliedField(o: Options, o': Options, f: OptionFunc, fld: Field)
    ensures !Touches(f, fld) ==> Get(Applied(o, f), fld) == Get(o, fld)
    ensures Touches(f, fld) ==> Get(Applied(o, f), fld) == Get(Applied(o', f), fld)
  {
  }

  lemma {:induction false} ApplyAllAppend(o: Options, fs: seq<OptionFunc>, gs: seq<OptionFunc>)
    ensures ApplyAll(o, fs + gs) == ApplyAll(ApplyAll(o, fs), gs)
    decreases |fs|
  {
    if fs != [] {
      assert (fs + gs)[1..] == fs[1..] + gs;
      ApplyAllAppend(Applied(o, fs[0]), fs[1..], gs);
    } else {
      assert fs + gs == gs;
    }
  }

  /** A field no closure touches keeps the value it started with; for
      `newKeyOption`, its default. */
  lemma {:induction false} UntouchedFieldKept(o: Options, fs: seq<OptionFunc>, fld: Field)
    requires forall i :: 0 <= i < |fs| ==> !Touches(fs[i], fld)
    ensures Get(ApplyAll(o, fs), fld) == Get(o, fld)
    decreases |fs|
  {
    if fs != [] {
      AppliedField(o, o, fs[0], fld);
      UntouchedFieldKept(Applied(o, fs[0]), fs[1..], fld);
    }
  }

  /** The last closure that touches a field decides its value. */
  lemma LastSetterWins(o: Options, fs: seq<OptionFunc>, i: nat, fld: Field)
    requires i < |fs| && Touches(fs[i], fld)
    requires forall j :: i < j < |fs| ==> !Touches(fs[j], fld)
    ensures Get(ApplyAll(o, fs), fld) == Get(Applied(o, fs[i]), fld)
  {
    var before := ApplyAll(o, fs[..i]);
    assert fs == fs[..i] + ([fs[i]] + fs[i + 1..]);
    ApplyAllAppend(o, fs[..i], [fs[i]] + fs[i + 1..]);
    ApplyAllAppend(before, [fs[i]], fs[i + 1..]);
    assert ApplyAll(before, [fs[i]]) == Applied(before, fs[i]) by {
      assert [fs[i]][1..] == [];
    }
    UntouchedFieldKept(Applied(before, fs[i]), fs[i + 1..], fld);
    AppliedField(before, o, fs[i], fld);
  }

  // ---------------------------------------------------------------------
  // PathFunc's captured variable
  // ---------------------------------------------------------------------

  /** One call of the closure that `PathFunc` returns, as written: the
      closure assigns the trimmed path back to its captured variable, so the
      next call of the same closure value starts from the trimmed text. The
      result is the captured variable's new value and the new options. On
      any single call it does what `Applied` does. */
  function PathClosureCall(captured: string, o: Options): (r: (string, Options))
    ensures r.0 == TrimPrefix(captured, "m/")
    ensures r.1 == Applied(o, PathFunc(captured))
  {
    var path := TrimPrefix(captured, "m/");
    var paths := Split(path, '/');
    if |paths| != 5 then (path, o)
    else (path, o.(purpose := PathNumber(paths[0]), coinType := PathNumber(paths[1]),
                   account := PathNumber(paths[2]), change := PathNumber(paths[3]),
                   addressIndex := PathNumber(paths[4])))
  }

  /** Reusing one PathFunc value whose path is `m/m/` followed by a
      five-piece body: the first call sees six pieces and leaves the options
      alone, but writes `m/` + body back; the second call then sets the
      five levels from the body. */
  lemma PathClosureReuse(body: string, o: Options)
    requires !HasPrefix(body, "m/") && |Split(body, '/')| == 5
    ensures PathClosureCall("m/m/" + body, o) == ("m/" + body, o)
    ensures PathClosureCall("m/" + body, o).1 == Applied(o, PathFunc(body))
    ensures |PathSegments(body)| == 5
  {
    var t := "m/" + body;
    var s := "m/" + t;
    assert s == "m/m/" + body;
    assert HasPrefix(s, "m/") && s[2..] == t;
    MarkedSplit(body);
    assert PathSegments(s) == ["m"] + Split(body, '/');
    SameSegmentsSameEffect(o, t, body);
  }

  /** `m/` + body splits into "m" followed by the pieces of body. */
  lemma MarkedSplit(body: string)
    ensures Split("m/" + body, '/') == ["m"] + Split(body, '/')
  {
    var t := "m/" + body;
    assert t == "m" + ['/'] + body;
    IndexOfAfterFree("m", '/', body);
    assert t[..1] == "m" && t[2..] == body;
  }

  /** Two paths with the same pieces have the same effect. */
  lemma SameSegmentsSameEffect(o: Options, p: string, q: string)
    requires PathSegments(p) == PathSegments(q)
    ensures Applied(o, PathFunc(p)) == Applied(o, PathFunc(q))
  {
  }

  /** The divergence for any printed levels: the closure for
      `m/m/a/b/c/d/e` leaves any options o alone on its first call and sets
      the path to a/b/c/d/e on its second, so the two calls differ whenever
      o's path is not already a/b/c/d/e (for example "m/m/1/2/3/4/5" on
      the defaults). */
  lemma PathClosureReuseDiverges(o: Options, a: Uint32, b: Uint32, c: Uint32, d: Uint32, e: Uint32)
    ensures var body := FormatUint(a) + "/" + FormatUint(b) + "/" + FormatUint(c) + "/"
                        + FormatUint(d) + "/" + FormatUint(e);
            var (c1, o1) := PathClosureCall("m/m/" + body, o);
            var (c2, o2) := PathClosureCall(c1, o);
            && o1 == o
            && GetPath(o2) == [a, b, c, d, e]
            && (GetPath(o) != [a, b, c, d, e] ==> o2 != o1)
  {
    var body := FormatUint(a) + "/" + FormatUint(b) + "/" + FormatUint(c) + "/"
                + FormatUint(d) + "/" + FormatUint(e);
    PrintedBody(o, a, b, c, d, e, body);
    PathClosureReuse(body, o);
    var r1 := PathClosureCall("m/m/" + body, o);
    assert r1 == ("m/" + body, o);
    var r2 := PathClosureCall(r1.0, o);
    assert r2.1 == Applied(o, PathFunc(body));
  }

  /** A five-level body printed with `%d`: it does not start with `m/`,
      it has five pieces, and PathFunc reads it as the five values. */
  lemma PrintedBody(o: Options, a: Uint32, b: Uint32, c: Uint32, d: Uint32, e: Uint32, body: string)
    requires body == FormatUint(a) + "/" + FormatUint(b) + "/" + FormatUint(c) + "/"
                     + FormatUint(d) + "/" + FormatUint(e)
    ensures !HasPrefix(body, "m/") && |Split(body, '/')| == 5
    ensures GetPath(Applied(o, PathFunc(body))) == [a, b, c, d, e]
  {
    var pa, pb, pc, pd, pe := FormatUint(a), FormatUint(b), FormatUint(c), FormatUint(d), FormatUint(e);
    DigitsHaveNoMarks(pa);
    DigitsHaveNoMarks(pb);
    DigitsHaveNoMarks(pc);
    DigitsHaveNoMarks(pd);
    DigitsHaveNoMarks(pe);
    JoinFive(pa, pb, pc, pd, pe);
    SplitJoin([pa, pb, pc, pd, pe], '/');
    assert Split(body, '/') == [pa, pb, pc, pd, pe];
    assert body[0] == pa[0] && IsDigit(pa[0]);
    assert TrimPrefix(body, "m/") == body;
    AppliedPathFunc(o, body);
    PathNumberOfFormat(a);
    PathNumberOfFormat(b);
    PathNumberOfFormat(c);
    PathNumberOfFormat(d);
    PathNumberOfFormat(e);
  }

  /** With the path kept per call (as `Applied` does), applying the same
      PathFunc option again changes nothing. */
  lemma {:induction false} PathFuncIdempotent(o: Options, path: string)
    ensures Applied(Applied(o, PathFunc(path)), PathFunc(path)) == Applied(o, PathFunc(path))
    ensures ApplyAll(o, [PathFunc(path), PathFunc(path)]) == ApplyAll(o, [PathFunc(path)])
  {
    var once := Applied(o, PathFunc(path));
    assert [PathFunc(path), PathFunc(path)][1..] == [PathFunc(path)];
    assert [PathFunc(path)][1..] == [];
    assert ApplyAll(once, [PathFunc(path)]) == Applied(once, PathFunc(path));
  }
}
