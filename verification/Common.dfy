/** Constants, request types and character classes shared by every other module
    (src/common.h, src/http_server_main_loop.c). */
module Common {

  datatype Option<+T> = None | Some(value: T)

  /** The three request types, in the order of the daemon's type table. */
  datatype PostType = Signup | Login | Admin

  function TypeStr(ty: PostType): string {
    match ty
    case Signup => "signup"
    case Login => "login"
    case Admin => "admin"
  }

  /** The database that holds counters, flags and sessions of a request type. */
  function IpCountDb(ty: PostType): int {
    match ty
    case Signup => 5
    case Login => 1
    case Admin => 12
  }

  /** The database that holds the user records. */
  const SALT_LOGIN_DB := 0

  // Lifetimes in seconds.
  const SIGNUP_OK_TTL := 3600
  const SIGNUP_FAILED_TTL := 3610
  const NEW_USER_TTL := 2592000
  const SESS_TTL := 300

  /** The most that one read of a request yields. */
  const REQUEST_MAX := 1024

  const SALT_LEN := 32
  const PASSWD_LEN := 64
  const USERNAME_MIN_LEN := 8
  const USERNAME_MAX_LEN := 20

  /** The clock counts milliseconds, as the store does for expiries. */
  function Millis(seconds: int): int {
    1000 * seconds
  }

  // Character classes of the "C" locale.
  predicate IsDigit(c: char) { '0' <= c <= '9' }

  predicate IsLower(c: char) { 'a' <= c <= 'z' }

  predicate IsUpper(c: char) { 'A' <= c <= 'Z' }

  predicate IsAlpha(c: char) { IsLower(c) || IsUpper(c) }

  predicate IsAlnum(c: char) { IsAlpha(c) || IsDigit(c) }

  predicate IsHexChar(c: char) { IsDigit(c) || 'a' <= c <= 'f' }

  function ToLower(c: char): char {
    if IsUpper(c) then (c as int + 32) as char else c
  }

  function Lowered(s: string): (r: string)
    ensures |r| == |s|
    ensures forall i :: 0 <= i < |s| ==> r[i] == ToLower(s[i])
  {
    seq(|s|, i requires 0 <= i < |s| => ToLower(s[i]))
  }

  /** A token of exactly n lowercase hexadecimal digits. */
  predicate HexToken(s: string, n: nat) {
    |s| == n && forall i :: 0 <= i < |s| ==> IsHexChar(s[i])
  }

  predicate AllZero(s: string) {
    forall i :: 0 <= i < |s| ==> s[i] == '0'
  }

  function Digit(d: nat): char
    requires d < 16
  {
    "0123456789abcdef"[d]
  }

  /** The text that %d prints. */
  function DecText(n: int): (s: string)
    ensures s != []
    ensures forall i :: 0 <= i < |s| ==> IsDigit(s[i]) || s[i] == '-'
    decreases n < 0, if n < 0 then -n else n
  {
    if n < 0 then "-" + DecText(-n)
    else if n < 10 then [Digit(n)]
    else DecText(n / 10) + [Digit(n % 10)]
  }

  /** The number that a decimal numeral stands for. */
  function DigitsValue(s: string): int
    requires forall i :: 0 <= i < |s| ==> '0' <= s[i] <= '9'
  {
    if s == "" then 0 else 10 * DigitsValue(s[..|s| - 1]) + (s[|s| - 1] as int - '0' as int)
  }

  /** The text is the decimal numeral of n. */
  predicate Numeral(s: string, n: int) {
    s != "" && (forall i :: 0 <= i < |s| ==> '0' <= s[i] <= '9') && DigitsValue(s) == n
  }
}
