/** The double-hash login: the text that is hashed, the hexadecimal loops of the C
    daemon and of the browser, and the comparison
    (src/calc_hash_passwd_argon.c, src/calc_hash_for_login.c,
    signup_html/calc_passHash.js, js/load_argon2.js, signup_html/utils.js). */
module Hashing {
  import opened Common
  import opened TextScan
  import opened CBuffer

  newtype Byte = b: int | 0 <= b < 256

  /** The two primitives; both are library code. */
  type Argon = (string, string) -> seq<Byte>
  type Sha = string -> seq<Byte>

  /** The whole pipeline: (input, salt) to a hexadecimal tag. */
  type Hasher = (string, string) -> string

  const DIGEST_LEN := 32

  function HexOfByte(b: Byte): string {
    [Digit(b as int / 16), Digit(b as int % 16)]
  }

  function HexText(bytes: seq<Byte>): (s: string)
    ensures |s| == 2 * |bytes|
    ensures forall i :: 0 <= i < |s| ==> IsHexChar(s[i])
  {
    if bytes == [] then "" else HexText(bytes[..|bytes| - 1]) + HexOfByte(bytes[|bytes| - 1])
  }

  /** The value of a hexadecimal digit. */
  function HexValue(c: char): int {
    if '0' <= c <= '9' then c as int - '0' as int else c as int - 'a' as int + 10
  }

  /** The text holds the value of each byte in two digits. */
  lemma {:induction false} HexTextReads(bytes: seq<Byte>, i: nat)
    requires i < |bytes|
    ensures var s := HexText(bytes);
            16 * HexValue(s[2 * i]) + HexValue(s[2 * i + 1]) == bytes[i] as int
    decreases |bytes|
  {
    hide HexText, HexOfByte, HexValue;
    var n, s := |bytes| - 1, HexText(bytes);
    HexTextEnd(bytes);
    if i < n {
      HexTextReads(bytes[..n], i);
      assert s[2 * i] == s[..2 * n][2 * i] && s[2 * i + 1] == s[..2 * n][2 * i + 1];
    } else {
      ByteReads(bytes[n]);
      assert s[2 * n] == s[2 * n..][0] && s[2 * n + 1] == s[2 * n..][1];
    }
  }

  lemma ByteReads(b: Byte)
    ensures |HexOfByte(b)| == 2 && 16 * HexValue(HexOfByte(b)[0]) + HexValue(HexOfByte(b)[1]) == b as int
  {
    DigitReads(b as int / 16);
    DigitReads(b as int % 16);
  }

  lemma DigitReads(d: nat)
    requires d < 16
    ensures HexValue(Digit(d)) == d
  {
  }

  lemma HexTextEnd(a: seq<Byte>)
    requires a != []
    ensures HexText(a)[..2 * |a| - 2] == HexText(a[..|a| - 1]) && HexText(a)[2 * |a| - 2..] == HexOfByte(a[|a| - 1])
  {
  }

  lemma HexOfByteInjective(x: Byte, y: Byte)
    requires HexOfByte(x) == HexOfByte(y)
    ensures x == y
  {
    DigitInjective(x as int / 16, y as int / 16);
    DigitInjective(x as int % 16, y as int % 16);
  }

  /** The same bytes give the same text and only they do. */
  lemma {:induction false} HexTextInjective(a: seq<Byte>, b: seq<Byte>)
    requires HexText(a) == HexText(b)
    ensures a == b
    decreases |a|
  {
    hide HexOfByte;
    assert |a| == |b|;
    if a != [] {
      var n := |a| - 1;
      HexTextEnd(a);
      HexTextEnd(b);
      HexTextInjective(a[..n], b[..n]);
      HexOfByteInjective(a[n], b[n]);
      assert a == a[..n] + [a[n]] && b == b[..n] + [b[n]];
    }
  }

  lemma DigitInjective(a: nat, b: nat)
    requires a < 16 && b < 16 && Digit(a) == Digit(b)
    ensures a == b
  {
  }

  // ----- The browser's side -----

  /** Number.prototype.toString(16). */
  function ToString16(n: nat): string {
    if n < 16 then [Digit(n)] else ToString16(n / 16) + [Digit(n % 16)]
  }

  function SliceLast2(s: string): string {
    if |s| <= 2 then s else s[|s| - 2..]
  }

  function PadStart2(s: string): string {
    if |s| >= 2 then s else if |s| == 1 then "0" + s else "00"
  }

  lemma BrowserDigits(b: Byte)
    ensures SliceLast2("0" + ToString16(b as int)) == HexOfByte(b)
    ensures PadStart2(ToString16(b as int)) == HexOfByte(b)
  {
    var n := b as int;
    if n < 16 {
      assert n / 16 == 0 && n % 16 == n;
      assert "0" + [Digit(n)] == [Digit(0), Digit(n)];
    } else {
      assert n / 16 < 16;
      assert ToString16(n) == [Digit(n / 16), Digit(n % 16)];
      assert ("0" + ToString16(n))[1..] == ToString16(n);
    }
  }

  /** argon2_calc: appends ('0' + byte.toString(16)).slice(-2) for every byte. */
  method ArgonHexLoop(bytes: seq<Byte>) returns (hashHex: string)
    ensures hashHex == HexText(bytes)
  {
    hashHex := "";
    for i := 0 to |bytes|
      invariant hashHex == HexText(bytes[..i])
    {
      BrowserDigits(bytes[i]);
      assert bytes[..i + 1][..i] == bytes[..i];
      hashHex := hashHex + SliceLast2("0" + ToString16(bytes[i] as int));
    }
    assert bytes[..|bytes|] == bytes;
  }

  /** sha256: maps every byte to byte.toString(16).padStart(2, "0") and joins. */
  function PaddedHex(bytes: seq<Byte>): string {
    if bytes == [] then "" else PadStart2(ToString16(bytes[0] as int)) + PaddedHex(bytes[1..])
  }

  lemma {:induction false} PaddedHexIsHexText(bytes: seq<Byte>, i: nat)
    requires i <= |bytes|
    ensures HexText(bytes[..i]) + PaddedHex(bytes[i..]) == HexText(bytes)
    decreases |bytes| - i
  {
    if i == |bytes| {
      assert bytes[..i] == bytes;
    } else {
      PaddedHexStep(bytes, i);
      HexTextSnoc(bytes, i);
      PaddedHexIsHexText(bytes, i + 1);
      Regroup(HexText(bytes[..i]), HexOfByte(bytes[i]), PaddedHex(bytes[i + 1..]));
    }
  }

  lemma Regroup(a: string, b: string, c: string)
    ensures a + (b + c) == a + b + c
  {
  }

  lemma PaddedHexStep(bytes: seq<Byte>, i: nat)
    requires i < |bytes|
    ensures PaddedHex(bytes[i..]) == HexOfByte(bytes[i]) + PaddedHex(bytes[i + 1..])
  {
    assert bytes[i..][1..] == bytes[i + 1..];
    BrowserDigits(bytes[i]);
  }

  lemma HexTextSnoc(bytes: seq<Byte>, i: nat)
    requires i < |bytes|
    ensures HexText(bytes[..i + 1]) == HexText(bytes[..i]) + HexOfByte(bytes[i])
  {
    assert bytes[..i + 1][..i] == bytes[..i];
  }

  // ----- The daemon's side -----

  /** snprintf(buf + 2*i, 3, "%02x", bytes[i]) for every byte, then a NUL. */
  method HexInto(bytes: seq<Byte>, buf: array<char>)
    requires buf.Length == 2 * |bytes| + 1
    modifies buf
    ensures buf[..2 * |bytes|] == HexText(bytes) && buf[2 * |bytes|] == '\0'
  {
    var i := 0;
    while i < |bytes|
      invariant 0 <= i <= |bytes|
      invariant buf[..2 * i] == HexText(bytes[..i])
    {
      buf[2 * i] := Digit(bytes[i] as int / 16);
      buf[2 * i + 1] := Digit(bytes[i] as int % 16);
      buf[2 * i + 2] := '\0';
      assert bytes[..i + 1][..i] == bytes[..i];
      assert buf[..2 * (i + 1)] == buf[..2 * i] + HexOfByte(bytes[i]);
      i := i + 1;
    }
    buf[2 * |bytes|] := '\0';
    assert bytes[..|bytes|] == bytes;
  }

  function Pipeline(argon: Argon, sha: Sha): Hasher {
    (input, salt) => HexText(sha(HexText(argon(input, salt))))
  }

  ghost predicate DigestSized(argon: Argon, sha: Sha) {
    && (forall x, y :: |argon(x, y)| == DIGEST_LEN)
    && (forall x :: |sha(x)| == DIGEST_LEN)
  }

  /** compute_signup_hash2: the tag lands in the thread's result buffer. */
  method ComputeSignupHash2(argon: Argon, sha: Sha, argonOk: bool, input: string, salt: string, rtBuf: array<char>)
    returns (rt: int)
    requires DigestSized(argon, sha) && rtBuf.Length == 2 * DIGEST_LEN + 1
    modifies rtBuf
    ensures rt == if argonOk then 0 else 242011
    ensures argonOk ==> rtBuf[..64] == Pipeline(argon, sha)(input, salt) == HexText(sha(HexText(argon(input, salt))))
  {
    if !argonOk { return 242011; }
    var tmpBuf := new char[2 * DIGEST_LEN + 1];
    HexInto(argon(input, salt), tmpBuf);
    HexInto(sha(tmpBuf[..2 * DIGEST_LEN]), rtBuf);
    return 0;
  }

  /** The browser's calc_passHash_ArgonSha256 on the same primitives; `fails` covers a hash
      module that is not loaded and either primitive giving up. */
  method BrowserHash(argon: Argon, sha: Sha, fails: bool, input: string, salt: string) returns (tag: Option<string>)
    ensures tag == if fails then None else Some(Pipeline(argon, sha)(input, salt))
    ensures !fails ==> tag == Some(HexText(sha(HexText(argon(input, salt)))))
  {
    if fails { return None; }
    var argonHash := ArgonHexLoop(argon(input, salt));
    var digest := sha(argonHash);
    var hex := PaddedHex(digest);
    PaddedHexIsHexText(digest, 0);
    assert digest[..0] == [] && digest[0..] == digest && "" + hex == hex;
    return Some(hex);
  }

  // ----- The hashed text and the login check -----

  function HashInput(salt: string, user: string, rest: string): string {
    salt + ":" + user + ":" + rest
  }

  /** Fixed-length salts and colon-free names make the text unambiguous. */
  lemma HashInputInjective(salt: string, user: string, rest: string, salt': string, user': string, rest': string)
    requires |salt| == |salt'|
    requires Free(user, {':'}) && Free(user', {':'})
    requires HashInput(salt, user, rest) == HashInput(salt', user', rest')
    ensures salt == salt' && user == user' && rest == rest'
  {
    var text := HashInput(salt, user, rest);
    var k := |salt| + 1;
    assert salt == text[..|salt|] == salt';
    var tail := text[k..];
    assert tail == user + ":" + rest && tail == user' + ":" + rest';
    assert forall i :: 0 <= i < |user| ==> tail[i] == user[i];
    assert forall i :: 0 <= i < |user'| ==> tail[i] == user'[i];
    SpanIs(tail, {':'}, |user|);
    SpanIs(tail, {':'}, |user'|);
    assert user == tail[..|user|] == user';
    assert rest == tail[|user| + 1..] == rest';
  }

  /** The text whose hash is compared with the submitted one. */
  function LoginInput(user: string, sess: string, stored: string): string {
    HashInput(Cut(sess, 32), user, Cut(stored, 64))
  }

  /** What calc_hash_for_login returns. */
  function LoginCheck(hash: Hasher, argonOk: bool, user: string, sess: string, stored: string, tried: string): int {
    if !argonOk then 242011
    else if hash(LoginInput(user, sess, stored), sess) != Cut(tried, 64) then 242041
    else 0
  }

  const LOGIN_BUFFER := 256

  /** For a name of valid length the text fits its buffer with room to spare. */
  lemma LoginInputFits(user: string, sess: string, stored: string)
    requires |user| <= USERNAME_MAX_LEN
    ensures |LoginInput(user, sess, stored)| <= 118
  {
  }

  lemma LoginInputFree(user: string, sess: string, stored: string)
    requires Free(user, NUL) && Free(sess, NUL) && Free(stored, NUL)
    ensures Free(LoginInput(user, sess, stored), NUL)
  {
    CutFree(sess, 32, NUL);
    CutFree(stored, 64, NUL);
    FreeCat(Cut(sess, 32), ":", NUL);
    FreeCat(Cut(sess, 32) + ":", user, NUL);
    FreeCat(Cut(sess, 32) + ":" + user, ":", NUL);
    FreeCat(Cut(sess, 32) + ":" + user + ":", Cut(stored, 64), NUL);
  }

  /** The text goes through a buffer of 256 characters; snprintf may use 255 of them, and
      a NUL is stored at the index that it returns. The index is inside the buffer, and the
      buffer holds the whole text, because the name has a valid length. */
  method CalcHashForLogin(argon: Argon, sha: Sha, argonOk: bool, user: string, sess: string, stored: string,
                          tried: string)
    returns (rt: int)
    requires DigestSized(argon, sha) && |user| <= USERNAME_MAX_LEN
    requires Free(user, NUL) && Free(sess, NUL) && Free(stored, NUL)
    ensures rt == LoginCheck(Pipeline(argon, sha), argonOk, user, sess, stored, tried)
  {
    var input := new char[LOGIN_BUFFER];
    var text := Cut(sess, 32) + ":" + user + ":" + Cut(stored, 64);
    LoginInputFits(user, sess, stored);
    LoginInputFree(user, sess, stored);
    var n := Snprintf(input, 0, LOGIN_BUFFER - 1, text);
    input[n] := '\0';
    CTextIs(input[..], text);
    var rtBuf := new char[2 * DIGEST_LEN + 1];
    rt := ComputeSignupHash2(argon, sha, argonOk, CText(input[..]), sess, rtBuf);
    if rt != 0 { return rt; }
    var same := SameUpTo(rtBuf[..2 * DIGEST_LEN], tried, 64);
    return if same then 0 else 242041;
  }

  /** strncmp on a string of at least n characters. */
  method SameUpTo(a: string, b: string, n: nat) returns (same: bool)
    requires |a| == n
    ensures same <==> a == Cut(b, n)
  {
    if |b| < n { return false; }
    var i := 0;
    while i < n
      invariant 0 <= i <= n
      invariant a[..i] == b[..i]
    {
      if a[i] != b[i] {
        assert Cut(b, n)[i] == b[i];
        return false;
      }
      i := i + 1;
    }
    assert a[..n] == a && b[..n] == Cut(b, n);
    return true;
  }

  /** The tag a browser computes at signup and stores through the daemon. */
  function SignupTag(hash: Hasher, salt1: string, user: string, password: string): string {
    hash(HashInput(salt1, user, password), salt1)
  }

  /** The tag a browser submits at login. */
  function LoginTag(hash: Hasher, salt1: string, salt2: string, user: string, password: string): string {
    hash(HashInput(salt2, user, SignupTag(hash, salt1, user, password)), salt2)
  }

  /** No collision between these two inputs. */
  ghost predicate Apart(hash: Hasher, x: string, salt: string, x': string, salt': string) {
    hash(x, salt) == hash(x', salt') ==> x == x' && salt == salt'
  }

  ghost predicate TagSized(hash: Hasher) {
    forall x, s :: |hash(x, s)| == PASSWD_LEN
  }

  /** Login exactness. Against the record made for `user` with password p and salt
      salt1, in the session salt2, the tag that a browser computes from (any) user',
      salts and password q is accepted exactly when all of them are the same,
      provided the two pairs of inputs that are compared do not collide. */
  lemma LoginExact(hash: Hasher, user: string, salt1: string, salt2: string, p: string,
                   user': string, salt1': string, salt2': string, q: string)
    requires TagSized(hash) && |salt2| == |salt2'| == SALT_LEN && |salt1| == |salt1'|
    requires Free(user, {':'}) && Free(user', {':'})
    requires Apart(hash, HashInput(salt1, user, p), salt1, HashInput(salt1', user', q), salt1')
    requires Apart(hash, HashInput(salt2, user, SignupTag(hash, salt1, user, p)), salt2,
                   HashInput(salt2', user', SignupTag(hash, salt1', user', q)), salt2')
    ensures LoginCheck(hash, true, user, salt2, SignupTag(hash, salt1, user, p),
                       LoginTag(hash, salt1', salt2', user', q)) == 0
       <==> user == user' && salt1 == salt1' && salt2 == salt2' && p == q
  {
    var stored, own := SignupTag(hash, salt1, user, p), SignupTag(hash, salt1', user', q);
    var tried := LoginTag(hash, salt1', salt2', user', q);
    assert |stored| == PASSWD_LEN && |tried| == PASSWD_LEN;
    if hash(HashInput(salt2, user, stored), salt2) == tried {
      HashInputInjective(salt2, user, stored, salt2', user', own);
      HashInputInjective(salt1, user, p, salt1', user', q);
    }
  }
}
