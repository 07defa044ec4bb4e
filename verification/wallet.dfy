/**
 * The wallet tracker page: the Solana address check it applies before
 * fetching, and the state its submit handler leaves behind.
 */
module WalletPage {
  import opened Wrappers
  import opened JsValue
  import Client

  /** The character class `[1-9A-HJ-NP-Za-km-z]`: Base58 without 0, O, I and l. */
  predicate IsBase58Char(c: char) {
    ('1' <= c <= '9') || ('A' <= c <= 'H') || ('J' <= c <= 'N') || ('P' <= c <= 'Z')
    || ('a' <= c <= 'k') || ('m' <= c <= 'z')
  }

  /** The characters from `lo` to `hi` inclusive, in code-point order. */
  function CharRange(lo: char, hi: char): (r: string)
    requires lo <= hi && hi as int < 0xD800
    ensures |r| == hi as int - lo as int + 1
    ensures forall i | 0 <= i < |r| :: r[i] as int == lo as int + i
  {
    seq(hi as int - lo as int + 1, i requires 0 <= i < hi as int - lo as int + 1 => (lo as int + i) as char)
  }

  lemma CharRangeMembers(lo: char, hi: char, c: char)
    requires lo <= hi && hi as int < 0xD800
    ensures c in CharRange(lo, hi) <==> lo <= c <= hi
  {
    if lo <= c <= hi {
      assert CharRange(lo, hi)[c as int - lo as int] == c;
    }
  }

  /**
   * The Base58 alphabet in the order Bitcoin and Solana use,
   * "123456789ABCDEFGHJKLMNPQRSTUVWXYZabcdefghijkmnopqrstuvwxyz".
   */
  function Base58Alphabet(): string {
    CharRange('1', '9') + CharRange('A', 'H') + CharRange('J', 'N') + CharRange('P', 'Z')
    + CharRange('a', 'k') + CharRange('m', 'z')
  }

  /** The character class admits exactly the 58 letters of the alphabet. */
  lemma Base58ClassIsAlphabet(c: char)
    ensures |Base58Alphabet()| == 58
    ensures IsBase58Char(c) <==> c in Base58Alphabet()
  {
    CharRangeMembers('1', '9', c);
    CharRangeMembers('A', 'H', c);
    CharRangeMembers('J', 'N', c);
    CharRangeMembers('P', 'Z', c);
    CharRangeMembers('a', 'k', c);
    CharRangeMembers('m', 'z', c);
  }

  /** `/^[1-9A-HJ-NP-Za-km-z]{32,44}$/.test(s)` */
  predicate MatchesSolanaAddress(s: string) {
    32 <= |s| <= 44 && forall i | 0 <= i < |s| :: IsBase58Char(s[i])
  }

  /** The characters `String.prototype.trim` removes: white space and line terminators. */
  predicate IsJsWhitespace(c: char) {
    var n := c as int;
    (9 <= n <= 13) || n == 0x20 || n == 0xA0 || n == 0x1680 || (0x2000 <= n <= 0x200A)
    || n == 0x2028 || n == 0x2029 || n == 0x202F || n == 0x205F || n == 0x3000 || n == 0xFEFF
  }

  predicate Blank(s: string) {
    forall i | 0 <= i < |s| :: IsJsWhitespace(s[i])
  }

  function TrimStart(s: string): string
    decreases |s|
  {
    if s != [] && IsJsWhitespace(s[0]) then TrimStart(s[1..]) else s
  }

  function TrimEnd(s: string): string
    decreases |s|
  {
    if s != [] && IsJsWhitespace(s[|s| - 1]) then TrimEnd(s[..|s| - 1]) else s
  }

  /** `s.trim()` */
  function Trim(s: string): string {
    TrimEnd(TrimStart(s))
  }

  lemma {:induction false} TrimStartEmptyIff(s: string)
    ensures TrimStart(s) == [] <==> Blank(s)
    ensures TrimStart(s) != [] ==> !IsJsWhitespace(TrimStart(s)[0])
    decreases |s|
  {
    if s != [] && IsJsWhitespace(s[0]) {
      TrimStartEmptyIff(s[1..]);
      assert Blank(s) <==> Blank(s[1..]) by {
        if Blank(s[1..]) {
          forall i | 0 <= i < |s| ensures IsJsWhitespace(s[i]) {
            if i > 0 { assert s[i] == s[1..][i - 1]; }
          }
        }
      }
    }
  }

  lemma {:induction false} TrimEndEmptyIff(s: string)
    ensures TrimEnd(s) == [] <==> Blank(s)
    decreases |s|
  {
    if s != [] && IsJsWhitespace(s[|s| - 1]) {
      TrimEndEmptyIff(s[..|s| - 1]);
      assert Blank(s) <==> Blank(s[..|s| - 1]) by {
        if Blank(s[..|s| - 1]) {
          forall i | 0 <= i < |s| ensures IsJsWhitespace(s[i]) {
            if i < |s| - 1 { assert s[i] == s[..|s| - 1][i]; }
          }
        }
      }
    }
  }

  /** `!s.trim()` holds exactly of the strings made only of white space, the empty one included. */
  lemma TrimEmptyIffBlank(s: string)
    ensures Trim(s) == "" <==> Blank(s)
  {
    TrimStartEmptyIff(s);
    TrimEndEmptyIff(TrimStart(s));
  }

  const EmptyAddressMessage: string := "Please enter a wallet address"
  const BadFormatMessage: string := "Invalid Solana wallet address format"
  const InvalidServerResponseMessage: string := "Invalid response from server"

  /** The outcome of `validateWalletAddress`: it returns, or throws with a message. */
  datatype Check = Valid | Invalid(message: string)

  /**
   * An address passes exactly when it matches the Solana pattern as typed.
   * A blank address is refused as missing; any other refused address as
   * badly formatted, so a blank one never gets the format message.
   */
  function ValidateWalletAddress(address: string): (r: Check)
    ensures r.Valid? <==> MatchesSolanaAddress(address)
    ensures r == Invalid(EmptyAddressMessage) <==> Blank(address)
    ensures r == Invalid(BadFormatMessage) <==> !Blank(address) && !MatchesSolanaAddress(address)
  {
    TrimEmptyIffBlank(address);
    assert MatchesSolanaAddress(address) ==> !IsJsWhitespace(address[0]);
    if Trim(address) == "" then Invalid(EmptyAddressMessage)
    else if !MatchesSolanaAddress(address) then Invalid(BadFormatMessage)
    else Valid
  }

  /** Every accepted address has 32 to 44 characters, none of them 0, O, I or l. */
  lemma AcceptedAddressShape(address: string)
    requires ValidateWalletAddress(address).Valid?
    ensures 32 <= |address| <= 44
    ensures '0' !in address && 'O' !in address && 'I' !in address && 'l' !in address
  {
  }

  /** Surrounding white space is not trimmed before the pattern test: a valid address with a leading space is refused as badly formatted. */
  lemma LeadingSpaceRejected(address: string)
    requires MatchesSolanaAddress(address)
    ensures ValidateWalletAddress(" " + address) == Invalid(BadFormatMessage)
  {
    var s := " " + address;
    assert s[1] == address[0];
    assert !IsJsWhitespace(s[1]);
    assert !IsBase58Char(s[0]);
  }

  /** The page state the submit handler reads and writes. */
  datatype PageState = PageState(walletAddress: string, walletData: Option<Json>, loading: bool, error: Option<string>)

  /**
   * One submission: the state rendered while the request is in flight (none
   * when validation fails, since the handler then never awaits), and the state
   * after the handler's `finally`.
   */
  datatype SubmitRun = SubmitRun(inFlight: Option<PageState>, final: PageState)

  /** The `try` block after validation: fetch, then insist on a `tokens` array. */
  function FetchChecked(address: string, net: Client.Network): (r: Result<Json, string>)
    ensures var f := Client.FetchWalletInfo(address, net);
      && (f.Failure? ==> r == Failure(f.error))
      && (f.Success? && !Field(f.value, "tokens").Arr? ==> r == Failure(InvalidServerResponseMessage))
      && (f.Success? && Field(f.value, "tokens").Arr? ==> r == f)
      && (r.Success? ==> f == r && Field(r.value, "tokens").Arr?)
  {
    match Client.FetchWalletInfo(address, net)
    case Failure(m) => Failure(m)
    case Success(data) =>
      if !Truthy(data) || !Field(data, "tokens").Arr? then Failure(InvalidServerResponseMessage)
      else Success(data)
  }

  /**
   * The submit handler. It clears the error, validates, sets loading and
   * fetches; any failure records its message and drops the wallet data; the
   * `finally` clears loading whatever happened.
   */
  function HandleSubmit(s: PageState, net: Client.Network): (run: SubmitRun)
    ensures run.final.walletAddress == s.walletAddress
    ensures !run.final.loading
    ensures run.inFlight.Some? <==> ValidateWalletAddress(s.walletAddress).Valid?
    ensures run.inFlight.Some? ==> run.inFlight.value == s.(error := None, loading := true)
    ensures ValidateWalletAddress(s.walletAddress).Invalid? ==>
      run.final == s.(error := Some(ValidateWalletAddress(s.walletAddress).message), walletData := None, loading := false)
    ensures ValidateWalletAddress(s.walletAddress).Valid? ==>
      var f := FetchChecked(s.walletAddress, net);
      && (f.Failure? ==> run.final == s.(error := Some(f.error), walletData := None, loading := false))
      && (f.Success? ==> run.final == s.(error := None, walletData := Some(f.value), loading := false))
    ensures run.final.error.None? <==> run.final.walletData.Some?
    ensures run.final.walletData.Some? ==>
      && Field(run.final.walletData.value, "tokens").Arr?
      && Client.FetchWalletInfo(s.walletAddress, net) == Success(run.final.walletData.value)
  {
    var cleared := s.(error := None);
    match ValidateWalletAddress(s.walletAddress)
    case Invalid(m) => SubmitRun(None, cleared.(error := Some(m), walletData := None, loading := false))
    case Valid =>
      var pending := cleared.(loading := true);
      match FetchChecked(s.walletAddress, net)
      case Success(data) => SubmitRun(Some(pending), pending.(walletData := Some(data), loading := false))
      case Failure(m) => SubmitRun(Some(pending), pending.(error := Some(m), walletData := None, loading := false))
  }

  /** A blank address is refused before any request, with the missing-address message. */
  lemma BlankSubmitRejected(s: PageState, net: Client.Network)
    requires Blank(s.walletAddress)
    ensures HandleSubmit(s, net).inFlight.None?
    ensures HandleSubmit(s, net).final.error == Some(EmptyAddressMessage)
  {
  }

  /** A valid address whose fetched body lacks a `tokens` array ends in "Invalid response from server". */
  lemma MissingTokensRejected(s: PageState, net: Client.Network)
    requires ValidateWalletAddress(s.walletAddress).Valid?
    requires Client.FetchWalletInfo(s.walletAddress, net).Success?
    requires !Field(Client.FetchWalletInfo(s.walletAddress, net).value, "tokens").Arr?
    ensures HandleSubmit(s, net).final.error == Some(InvalidServerResponseMessage)
    ensures HandleSubmit(s, net).final.walletData.None?
  {
  }
}
