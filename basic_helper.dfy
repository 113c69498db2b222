/**
 * Input validators of the platform's basic helper: format checks on
 * addresses, uuids, transaction hashes, branded-token names and symbols,
 * and conversion rates.
 *
 * Every check is a regular-expression test in `helpers/basic_helper.js`.
 * An anchored pattern `^0x[0-9a-fA-F]{n}$` is modelled by HexRun, a matcher that
 * consumes exactly n hex digits and then requires the end of input; an
 * unanchored one-character pattern such as `/[a-z0-9]/i` is modelled by
 * ContainsMatch, which tries every start position. Each matcher's contract
 * is the quantified, position-by-position meaning of the pattern.
 */
module BasicHelper {

  /** A JavaScript argument, as far as the `typeof x !== "string"` guards see it. */
  datatype JsValue = Str(value: string) | NonString

  /** The class `[0-9a-fA-F]`. */
  predicate IsHexDigit(c: char) {
    ('0' <= c <= '9') || ('a' <= c <= 'f') || ('A' <= c <= 'F')
  }

  /**
   * The class `[a-z0-9]` under the `i` flag. Without the `u` flag,
   * JavaScript's case-insensitive matching never maps a non-ASCII character
   * onto an ASCII one, so exactly the ASCII letters of either case and the
   * ASCII digits belong to it.
   */
  predicate IsAsciiAlnum(c: char) {
    ('a' <= c <= 'z') || ('A' <= c <= 'Z') || ('0' <= c <= '9')
  }

  /**
   * JavaScript's `\s`: the WhiteSpace and LineTerminator code points of
   * ECMAScript (tab, line feed, vertical tab, form feed, carriage return,
   * space, no-break space, the Unicode space separators, the line and
   * paragraph separators and the byte order mark).
   */
  predicate IsJsWhitespace(c: char) {
    var k := c as int;
    (0x09 <= k <= 0x0D) || k == 0x20 || k == 0xA0 || k == 0x1680
    || (0x2000 <= k <= 0x200A) || k == 0x2028 || k == 0x2029
    || k == 0x202F || k == 0x205F || k == 0x3000 || k == 0xFEFF
  }

  /** The class `[a-z0-9\s]` under the `i` flag. */
  predicate IsNameChar(c: char) {
    IsAsciiAlnum(c) || IsJsWhitespace(c)
  }

  /** Every character of `s` is a hex digit. */
  predicate AllHex(s: string) {
    forall i :: 0 <= i < |s| ==> IsHexDigit(s[i])
  }

  /**
   * Matches the pattern tail `[0-9a-fA-F]{n}$` at the start of `s`: n hex
   * digits, one at a time, and then the end of the input.
   */
  function HexRun(s: string, n: nat): (ok: bool)
    ensures ok <==> |s| == n && AllHex(s)
  {
    if n == 0 then s == []
    else |s| > 0 && IsHexDigit(s[0]) && HexRun(s[1..], n - 1)
  }

  /** Matches `^0x[0-9a-fA-F]{n}$` against the whole of `s`. */
  function PrefixedHex(s: string, n: nat): (ok: bool)
    ensures ok <==> |s| == n + 2 && s[0] == '0' && s[1] == 'x' && AllHex(s[2..])
  {
    |s| >= 2 && s[0] == '0' && s[1] == 'x' && HexRun(s[2..], n)
  }

  /**
   * Unanchored `test` of a one-character pattern whose class is `p`: tries
   * the pattern at every position of `s`, left to right.
   */
  function ContainsMatch(s: string, p: char -> bool): (found: bool)
    ensures found <==> exists i :: 0 <= i < |s| && p(s[i])
  {
    if s == [] then false
    else p(s[0]) || ContainsMatch(s[1..], p)
  }

  /** `isAddressValid`: a string `0x` followed by exactly 40 hex digits. */
  function IsAddressValid(address: JsValue): (ok: bool)
    ensures ok <==> address.Str? && |address.value| == 42
                    && address.value[..2] == "0x" && AllHex(address.value[2..])
  {
    match address
    case NonString => false
    case Str(s) => PrefixedHex(s, 40)
  }

  /** `isUuidValid`: a string `0x` followed by exactly 64 hex digits. */
  function IsUuidValid(uuid: JsValue): (ok: bool)
    ensures ok <==> uuid.Str? && |uuid.value| == 66
                    && uuid.value[..2] == "0x" && AllHex(uuid.value[2..])
  {
    match uuid
    case NonString => false
    case Str(s) => PrefixedHex(s, 64)
  }

  /** `isTxHashValid`: the same pattern as `isUuidValid`. */
  function IsTxHashValid(transactionHash: JsValue): (ok: bool)
    ensures ok <==> transactionHash.Str? && |transactionHash.value| == 66
                    && transactionHash.value[..2] == "0x" && AllHex(transactionHash.value[2..])
  {
    match transactionHash
    case NonString => false
    case Str(s) => PrefixedHex(s, 64)
  }

  /**
   * `isBTNameValid`: the unanchored test `/[a-z0-9\s]/i`, so a name is
   * accepted as soon as one of its characters is an ASCII letter, an ASCII
   * digit or whitespace, whatever the other characters are.
   */
  function IsBTNameValid(name: JsValue): (ok: bool)
    ensures ok <==> name.Str? && exists i :: 0 <= i < |name.value| && IsNameChar(name.value[i])
  {
    match name
    case NonString => false
    case Str(s) => ContainsMatch(s, IsNameChar)
  }

  /**
   * `isBTSymbolValid`: the unanchored test `/[a-z0-9]/i`, so a symbol is
   * accepted as soon as one of its characters is an ASCII letter or digit.
   */
  function IsBTSymbolValid(symbol: JsValue): (ok: bool)
    ensures ok <==> symbol.Str? && exists i :: 0 <= i < |symbol.value| && IsAsciiAlnum(symbol.value[i])
  {
    match symbol
    case NonString => false
    case Str(s) => ContainsMatch(s, IsAsciiAlnum)
  }

  /**
   * `isBTConversionRateValid` on an integer argument: it is not NaN, its
   * remainder modulo 1 is zero (for integers the truncating `%` of
   * JavaScript and Dafny's Euclidean `%` agree there), and `parseInt` gives
   * back a number with the same sign and the same comparison with 1 (in
   * exponent notation it keeps only the leading digit, which is still at
   * least 1), so the rate is valid exactly when it is at least 1.
   */
  function IsBTConversionRateValid(conversionRate: int): (ok: bool)
    ensures ok <==> conversionRate >= 1
  {
    !(conversionRate % 1 != 0 || conversionRate < 1)
  }

  /** `isTxHashValid` and `isUuidValid` accept exactly the same arguments. */
  lemma TxHashAcceptsExactlyUuids(v: JsValue)
    ensures IsTxHashValid(v) <==> IsUuidValid(v)
  {
  }

  /** No argument is both a valid address and a valid uuid: 42 is not 66. */
  lemma AddressAndUuidDisjoint(v: JsValue)
    ensures !(IsAddressValid(v) && IsUuidValid(v))
  {
  }

  /** The upper-case prefix `0X` is refused: only `0x` is allowed. */
  lemma UpperCasePrefixRefused(s: string)
    requires |s| >= 2 && s[1] == 'X'
    ensures !IsAddressValid(Str(s)) && !IsUuidValid(Str(s))
  {
  }

  /** Every valid symbol string is also a valid name string. */
  lemma SymbolValidImpliesNameValid(v: JsValue)
    ensures IsBTSymbolValid(v) ==> IsBTNameValid(v)
  {
  }

  /**
   * The converse does not hold: a name made of whitespace only is valid,
   * while the same string is not a valid symbol.
   */
  lemma WhitespaceNameIsNotASymbol()
    ensures IsBTNameValid(Str(" ")) && !IsBTSymbolValid(Str(" "))
  {
  }

  /**
   * Because the tests are unanchored, one acceptable character anywhere
   * makes the whole string acceptable, whatever surrounds it.
   */
  lemma NameCheckIsUnanchored(prefix: string, c: char, suffix: string)
    requires IsNameChar(c)
    ensures IsBTNameValid(Str(prefix + [c] + suffix))
  {
    var s := prefix + [c] + suffix;
    assert s[|prefix|] == c;
  }
}
