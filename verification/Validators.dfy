/** Server-side input checks (src/http_utils.c) and the browser's username rule
    (signup_html/validators.js). */
module Validators {
  import opened Common

  predicate UsernameOk(s: string) {
    && USERNAME_MIN_LEN <= |s| <= USERNAME_MAX_LEN
    && IsAlpha(s[0])
    && IsAlnum(s[|s| - 1])
    && forall i :: 0 <= i < |s| ==> IsAlnum(s[i]) || s[i] == '-' || s[i] == '_'
  }

  /** A token of n hex digits, not all of them zero. */
  predicate HexOk(s: string, n: nat) {
    HexToken(s, n) && !AllZero(s)
  }

  // The two rules, character by character.

  predicate NameChars(s: string) {
    && 8 <= |s| <= 20
    && ('a' <= s[0] <= 'z' || 'A' <= s[0] <= 'Z') && s[|s| - 1] != '-' && s[|s| - 1] != '_'
    && forall i :: 0 <= i < |s| ==>
         'a' <= s[i] <= 'z' || 'A' <= s[i] <= 'Z' || '0' <= s[i] <= '9' || s[i] == '-' || s[i] == '_'
  }

  predicate HexChars(s: string, n: nat) {
    && |s| == n && (forall i :: 0 <= i < n ==> '0' <= s[i] <= '9' || 'a' <= s[i] <= 'f')
    && exists i :: 0 <= i < n && s[i] != '0'
  }

  method ValidateUsername(username: string) returns (ok: bool)
    ensures ok <==> UsernameOk(username)
    ensures ok <==> NameChars(username)
  {
    if |username| < USERNAME_MIN_LEN || |username| > USERNAME_MAX_LEN {
      return false;
    }
    if !IsAlpha(username[0]) || !IsAlnum(username[|username| - 1]) {
      return false;
    }
    var i := 1;
    while i < |username| - 1
      invariant 1 <= i <= |username| - 1
      invariant forall j :: 0 <= j < i ==> IsAlnum(username[j]) || username[j] == '-' || username[j] == '_'
    {
      if !IsAlnum(username[i]) && username[i] != '-' && username[i] != '_' {
        return false;
      }
      i := i + 1;
    }
    return true;
  }

  /** validate_passwd and validate_signup_salt differ only in the length. */
  method ValidateHex(s: string, len: nat) returns (ok: bool)
    ensures ok <==> HexOk(s, len)
    ensures ok <==> HexChars(s, len)
  {
    if |s| != len {
      return false;
    }
    var i := 0;
    while i < len
      invariant 0 <= i <= len
      invariant forall j :: 0 <= j < i ==> IsHexChar(s[j])
    {
      if !IsDigit(s[i]) && !('a' <= s[i] <= 'f') {
        return false;
      }
      i := i + 1;
    }
    var allZero := true;
    i := 0;
    while i < len && allZero
      invariant 0 <= i <= len
      invariant allZero ==> forall j :: 0 <= j < i ==> s[j] == '0'
      invariant !allZero ==> !AllZero(s)
    {
      if s[i] != '0' {
        allZero := false;
      }
      i := i + 1;
    }
    return !allZero;
  }

  method LowercaseInPlace(buf: array<char>)
    modifies buf
    ensures buf[..] == Lowered(old(buf[..]))
  {
    var i := 0;
    while i < buf.Length
      invariant 0 <= i <= buf.Length
      invariant forall j :: 0 <= j < i ==> buf[j] == ToLower(old(buf[j]))
      invariant forall j :: i <= j < buf.Length ==> buf[j] == old(buf[j])
    {
      buf[i] := ToLower(buf[i]);
      i := i + 1;
    }
  }

  // ----- The browser's two regular expressions -----

  datatype Class = FirstClass | MiddleClass | LastClass | AnyButNewline

  predicate InClass(c: char, k: Class) {
    match k
    case FirstClass => IsLower(c)
    case MiddleClass => IsLower(c) || IsDigit(c) || c == '-' || c == '_'
    case LastClass => IsLower(c) || IsDigit(c)
    case AnyButNewline => c != '\n' && c != '\r' && c != 0x2028 as char && c != 0x2029 as char
  }

  datatype Regex =
    | Cls(k: Class)
    | Cat(a: Regex, b: Regex)
    | Star(r: Regex)
    | Times(r: Regex, lo: nat, hi: nat)

  /** Whole-string match: s is read by the expression from ^ to $. */
  ghost predicate Matches(r: Regex, s: string)
    decreases r, |s|, 0
  {
    match r
    case Cls(k) => |s| == 1 && InClass(s[0], k)
    case Cat(a, b) => exists i :: 0 <= i <= |s| && Matches(a, s[..i]) && Matches(b, s[i..])
    case Star(q) => s == [] || exists i :: 0 < i <= |s| && Matches(q, s[..i]) && Matches(r, s[i..])
    case Times(q, lo, hi) => exists n :: lo <= n <= hi && Repeats(q, n, s)
  }

  ghost predicate Repeats(q: Regex, n: nat, s: string)
    decreases q, |s|, n + 1
  {
    if n == 0 then s == []
    else exists i :: 0 <= i <= |s| && Matches(q, s[..i]) && Repeats(q, n - 1, s[i..])
  }

  const TAIL_REGEX := Cat(Star(Cls(MiddleClass)), Cls(LastClass))

  /** /^[a-z][a-z0-9\-_]*[a-z0-9]$/ */
  const FORMAT_REGEX := Cat(Cls(FirstClass), TAIL_REGEX)

  /** /^.{8,20}$/ */
  const LENGTH_REGEX := Times(Cls(AnyButNewline), 8, 20)

  predicate AllIn(s: string, k: Class) {
    forall i :: 0 <= i < |s| ==> InClass(s[i], k)
  }

  lemma {:induction false} StarOfClass(k: Class, s: string)
    ensures Matches(Star(Cls(k)), s) <==> AllIn(s, k)
    decreases |s|
  {
    if s != [] {
      forall i | 0 < i <= |s|
        ensures Matches(Star(Cls(k)), s[i..]) <==> AllIn(s[i..], k)
      {
        StarOfClass(k, s[i..]);
      }
      if AllIn(s, k) {
        assert Matches(Cls(k), s[..1]) && Matches(Star(Cls(k)), s[1..]);
      }
      if Matches(Star(Cls(k)), s) {
        var i :| 0 < i <= |s| && Matches(Cls(k), s[..i]) && Matches(Star(Cls(k)), s[i..]);
        assert i == 1 && s[..i][0] == s[0];
        forall j | 0 <= j < |s| ensures InClass(s[j], k) {
          if j > 0 { assert s[j] == s[i..][j - 1]; }
        }
      }
    }
  }

  lemma {:induction false} RepeatsOfClass(k: Class, n: nat, s: string)
    ensures Repeats(Cls(k), n, s) <==> |s| == n && AllIn(s, k)
    decreases n
  {
    if n > 0 {
      forall i | 0 <= i <= |s|
        ensures Repeats(Cls(k), n - 1, s[i..]) <==> |s[i..]| == n - 1 && AllIn(s[i..], k)
      {
        RepeatsOfClass(k, n - 1, s[i..]);
      }
      if |s| == n && AllIn(s, k) {
        assert Matches(Cls(k), s[..1]) && Repeats(Cls(k), n - 1, s[1..]);
      }
      if Repeats(Cls(k), n, s) {
        var i :| 0 <= i <= |s| && Matches(Cls(k), s[..i]) && Repeats(Cls(k), n - 1, s[i..]);
        assert i == 1 && s[..i][0] == s[0];
        forall j | 0 <= j < |s| ensures InClass(s[j], k) {
          if j > 0 { assert s[j] == s[i..][j - 1]; }
        }
      }
    }
  }

  lemma LengthRegexMeaning(s: string)
    ensures Matches(LENGTH_REGEX, s) <==> 8 <= |s| <= 20 && AllIn(s, AnyButNewline)
  {
    RepeatsOfClass(AnyButNewline, |s|, s);
    forall n: nat ensures Repeats(Cls(AnyButNewline), n, s) <==> |s| == n && AllIn(s, AnyButNewline) {
      RepeatsOfClass(AnyButNewline, n, s);
    }
  }

  predicate FormatOk(s: string) {
    |s| >= 2 && IsLower(s[0]) && InClass(s[|s| - 1], LastClass) && AllIn(s, MiddleClass)
  }

  lemma TailRegexMeaning(s: string)
    ensures Matches(TAIL_REGEX, s)
       <==> |s| > 0 && AllIn(s[..|s| - 1], MiddleClass) && InClass(s[|s| - 1], LastClass)
  {
    if |s| > 0 {
      var j := |s| - 1;
      StarOfClass(MiddleClass, s[..j]);
      assert s[j..] == [s[j]];
      assert Matches(Cls(LastClass), s[j..]) <==> InClass(s[j], LastClass);
    }
    if Matches(TAIL_REGEX, s) {
      var j :| 0 <= j <= |s| && Matches(Star(Cls(MiddleClass)), s[..j]) && Matches(Cls(LastClass), s[j..]);
      assert j == |s| - 1;
    }
  }

  lemma FormatRegexMeaning(s: string)
    ensures Matches(FORMAT_REGEX, s) <==> FormatOk(s)
  {
    if Matches(FORMAT_REGEX, s) {
      var i :| 0 <= i <= |s| && Matches(Cls(FirstClass), s[..i]) && Matches(TAIL_REGEX, s[i..]);
      FormatParts(s, i);
    }
    if FormatOk(s) {
      FormatParts(s, 1);
    }
  }

  lemma FormatParts(s: string, i: nat)
    requires i <= |s|
    ensures Matches(Cls(FirstClass), s[..i]) && Matches(TAIL_REGEX, s[i..]) <==> i == 1 && FormatOk(s)
  {
    TailRegexMeaning(s[i..]);
    if i == 1 && |s| >= 2 {
      var middle := s[1..][..|s| - 2];
      assert forall k :: 0 < k < |s| - 1 ==> s[k] == middle[k - 1];
      assert AllIn(middle, MiddleClass) <==> forall k :: 0 < k < |s| - 1 ==> InClass(s[k], MiddleClass);
    }
  }

  /** The server accepts the lowercased name exactly when the browser's two
      expressions both accept that lowercase form. */
  lemma UsernameRulesAgree(name: string)
    ensures UsernameOk(Lowered(name))
       <==> Matches(FORMAT_REGEX, Lowered(name)) && Matches(LENGTH_REGEX, Lowered(name))
  {
    var s := Lowered(name);
    FormatRegexMeaning(s);
    LengthRegexMeaning(s);
    assert forall i :: 0 <= i < |s| ==> !IsUpper(s[i]);
  }
}
