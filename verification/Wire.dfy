/** The text of keys and commands: what the daemon formats, how the store's client
    library splits it, and which key the EXPIRE after an HSET is sent for
    (src/redis_set_hset_key_value.c, src/redis_get_int.c, src/redis_increment.c,
    src/redis_get_hget_string.c, and the formats at their callers). */
module Wire {
  import opened Common
  import opened RedisStore
  import opened TextScan
  import opened Validators
  import opened Hashing
  import opened PostPath
  import opened CBuffer

  // ----- Keys -----

  function Family(k: Key): string {
    match k
    case SessKey(_, _, _) => "_sess"
    case OkKey(_, _) => "OK"
    case FailedKey(_, _) => "Failed"
    case UserKey(_, _) => "User"
  }

  /** The part of a key before its first colon. */
  function KeyTag(k: Key): string {
    TypeStr(k.ty) + Family(k)
  }

  function KeyRest(k: Key): string {
    match k
    case SessKey(_, user, salt) => user + ":" + salt
    case OkKey(_, ip) => ip
    case FailedKey(_, ip) => ip + ":count"
    case UserKey(_, user) => user
  }

  function KeyText(k: Key): string {
    KeyTag(k) + ":" + KeyRest(k)
  }

  predicate SaltSized(k: Key) {
    k.SessKey? ==> |k.salt| == SALT_LEN
  }

  lemma TagsDiffer(a: Key, b: Key)
    requires KeyTag(a) == KeyTag(b)
    ensures a.ty == b.ty
    ensures a.SessKey? <==> b.SessKey?
    ensures a.OkKey? <==> b.OkKey?
    ensures a.FailedKey? <==> b.FailedKey?
  {
    var s := KeyTag(a);
    assert s[0] == TypeStr(a.ty)[0] && KeyTag(b)[0] == TypeStr(b.ty)[0];
    assert |s| == |TypeStr(a.ty)| + |Family(a)|;
    assert |s| == |TypeStr(b.ty)| + |Family(b)|;
  }

  lemma TagFree(k: Key)
    ensures Free(KeyTag(k), {':', ' ', '%', '\0'}) && 7 <= |KeyTag(k)| <= 12
  {
    FreeCat(TypeStr(k.ty), Family(k), {':', ' ', '%', '\0'});
  }

  lemma SplitAtColon(head: string, rest: string)
    requires Free(head, {':'})
    ensures SpanLen(head + ":" + rest, {':'}) == |head|
  {
    var s := head + ":" + rest;
    assert forall i :: 0 <= i < |head| ==> s[i] == head[i];
    SpanIs(s, {':'}, |head|);
  }

  lemma RestInjective(a: Key, b: Key)
    requires SaltSized(a) && SaltSized(b) && KeyTag(a) == KeyTag(b) && KeyRest(a) == KeyRest(b)
    ensures a == b
  {
    TagsDiffer(a, b);
    var s := KeyRest(a);
    if a.SessKey? {
      var n := |s| - SALT_LEN;
      assert a.salt == s[n..] && b.salt == s[n..];
      assert a.user == s[..n - 1] && b.user == s[..n - 1];
    } else if a.FailedKey? {
      assert a.ip == s[..|s| - 6] && b.ip == s[..|s| - 6];
    }
  }

  /** Different keys have different texts: family, type, name or address, and session
      salt can all be read back. */
  lemma KeyTextInjective(a: Key, b: Key)
    requires SaltSized(a) && SaltSized(b) && KeyText(a) == KeyText(b)
    ensures a == b
  {
    hide KeyTag, KeyRest;
    TagFree(a);
    TagFree(b);
    SplitAtColon(KeyTag(a), KeyRest(a));
    SplitAtColon(KeyTag(b), KeyRest(b));
    var s, n := KeyText(a), |KeyTag(a)|;
    assert KeyTag(a) == s[..n] && KeyTag(b) == s[..n];
    assert KeyRest(a) == s[n + 1..] && KeyRest(b) == s[n + 1..];
    RestInjective(a, b);
  }

  // ----- Words -----

  const SPACE: set<char> := {' '}

  predicate WordOk(word: string) {
    word != "" && Free(word, SPECIAL)
  }

  function JoinWords(words: seq<string>): string {
    if words == [] then ""
    else if |words| == 1 then words[0]
    else words[0] + " " + JoinWords(words[1..])
  }

  predicate Unspaced(words: seq<string>) {
    forall word :: word in words ==> word != "" && Free(word, SPACE)
  }

  lemma {:induction false} TokensAreUnspaced(s: string)
    ensures Unspaced(Tokens(s, SPACE))
    decreases |s|
  {
    if s == "" {
    } else if s[0] in SPACE {
      TokensAreUnspaced(s[1..]);
    } else {
      TokensAreUnspaced(s[SpanLen(s, SPACE)..]);
    }
  }

  lemma JoinStarts(words: seq<string>)
    requires words != []
    ensures var n := |words[0]|;
            && n <= |JoinWords(words)| && JoinWords(words)[..n] == words[0]
            && (if |words| == 1 then JoinWords(words) == words[0]
                else
                  && n < |JoinWords(words)| && JoinWords(words)[n] == ' '
                  && JoinWords(words)[n + 1..] == JoinWords(words[1..]))
  {
  }

  lemma {:induction false} SplitUndoesJoin(words: seq<string>)
    requires Unspaced(words)
    ensures Tokens(JoinWords(words), SPACE) == words
    decreases |words|
  {
    if words != [] {
      hide JoinWords;
      var text, word := JoinWords(words), words[0];
      assert word in words;
      JoinStarts(words);
      assert forall i :: 0 <= i < |word| ==> text[i] == text[..|word|][i];
      assert text[0..] == text && text[0..|word|] == word;
      TokenAt(text, SPACE, 0, |word|);
      if |words| == 1 {
        assert text[|text|..] == "";
      } else {
        assert forall other :: other in words[1..] ==> other in words;
        SplitUndoesJoin(words[1..]);
        SkipSeparator(text, SPACE, |word|);
      }
    }
  }

  /** The client library cuts a command at spaces. It finds the intended arguments again
      exactly when none of them is empty or holds a space. */
  lemma SplitExactly(words: seq<string>)
    ensures Tokens(JoinWords(words), SPACE) == words <==> Unspaced(words)
  {
    TokensAreUnspaced(JoinWords(words));
    if Unspaced(words) { SplitUndoesJoin(words); }
  }

  lemma WordsUnspaced(words: seq<string>)
    requires forall word :: word in words ==> WordOk(word)
    ensures Unspaced(words)
  {
  }

  lemma {:induction false} JoinFree(words: seq<string>)
    requires forall word :: word in words ==> WordOk(word)
    ensures Free(JoinWords(words), {'%', '\0'})
    decreases |words|
  {
    if |words| == 1 { assert words[0] in words; }
    if |words| > 1 {
      assert words[0] in words;
      assert forall other :: other in words[1..] ==> other in words;
      JoinFree(words[1..]);
    }
  }

  // ----- Numbers -----

  lemma DecTextLast(n: nat)
    ensures n >= 10 ==> DecText(n)[..|DecText(n)| - 1] == DecText(n / 10)
    ensures DecText(n)[|DecText(n)| - 1] == Digit(n % 10)
    ensures |DecText(n)| == 1 <==> n < 10
  {
  }

  lemma {:induction false} DecTextInjective(a: nat, b: nat)
    requires DecText(a) == DecText(b)
    ensures a == b
    decreases a
  {
    DecTextLast(a);
    DecTextLast(b);
    DigitInjective(a % 10, b % 10);
    if a >= 10 { DecTextInjective(a / 10, b / 10); }
  }

  /** What is printed is the number's decimal numeral, behind a sign if it is negative. */
  lemma NumberReads(n: int)
    ensures if n >= 0 then Numeral(DecText(n), n) else DecText(n)[0] == '-' && Numeral(DecText(n)[1..], -n)
  {
    if n >= 0 { DecTextReads(n); } else { DecTextReads(-n); }
  }

  lemma {:induction false} DecTextReads(n: nat)
    ensures Numeral(DecText(n), n)
    decreases n
  {
    hide Numeral, Digit;
    if n >= 10 {
      DecTextReads(n / 10);
      NumeralGrows(DecText(n / 10), n / 10, n % 10);
    } else {
      DigitIsNumeral(n);
    }
  }

  lemma DigitIsNumeral(d: nat)
    requires d < 10
    ensures Numeral([Digit(d)], d)
  {
    assert [Digit(d)][..0] == "";
  }

  lemma NumeralGrows(s: string, n: nat, d: nat)
    requires Numeral(s, n) && d < 10
    ensures Numeral(s + [Digit(d)], 10 * n + d)
  {
    assert (s + [Digit(d)])[..|s|] == s;
  }

  function Pow10(d: nat): nat {
    if d == 0 then 1 else 10 * Pow10(d - 1)
  }

  lemma {:induction false} DecTextLength(n: nat, d: nat)
    requires n < Pow10(d) && d >= 1
    ensures |DecText(n)| <= d
    decreases d
  {
    if n >= 10 { DecTextLength(n / 10, d - 1); }
  }

  lemma DecTextWord(n: nat)
    requires n < 10_000_000
    ensures WordOk(DecText(n)) && |DecText(n)| <= 7
  {
    assert Pow10(7) == 10 * 10 * 10 * 10 * 10 * 10 * 10;
    DecTextLength(n, 7);
  }

  // ----- Commands -----

  const RECORD_FIELDS: set<string> := {"hash", "salt", "level", "status"}

  /** The arguments of a command, in the order of the daemon's formats. */
  function Args(cmd: Cmd): seq<string>
    requires cmd.HSet? ==> cmd.fields.Keys == RECORD_FIELDS
  {
    match cmd
    case Get(k) => ["GET", KeyText(k)]
    case HGet(k, field) => ["HGET", KeyText(k), field]
    case Exists(k) => ["EXISTS", KeyText(k)]
    case Incr(k) => ["INCR", KeyText(k)]
    case Expire(k, ttl) => ["EXPIRE", KeyText(k), DecText(ttl)]
    case SetEx(k, text, ttl) => ["SET", KeyText(k), text, "EX", DecText(ttl)]
    case HSet(k, f) =>
      ["HSET", KeyText(k), "hash", f["hash"], "salt", f["salt"], "level", f["level"], "status", f["status"]]
  }

  predicate KeyFits(k: Key) {
    match k
    case SessKey(_, user, salt) => UsernameOk(user) && HexToken(salt, SALT_LEN)
    case OkKey(_, ip) => IpText(ip)
    case FailedKey(_, ip) => IpText(ip)
    case UserKey(_, user) => UsernameOk(user)
  }

  /** A value that may be stored: a non-empty word of at most 64 characters. */
  predicate ValueFits(s: string) {
    WordOk(s) && |s| <= 64
  }

  /** A command whose parts are validated names, hashes and salts and a plain address. */
  predicate Sendable(cmd: Cmd) {
    && KeyFits(cmd.key)
    && match cmd
       case SetEx(_, text, ttl) => ValueFits(text) && 0 < ttl < 10_000_000
       case HSet(_, f) => f.Keys == RECORD_FIELDS && forall name :: name in f ==> ValueFits(f[name])
       case HGet(_, field) => field == "hash" || field == "salt"
       case Expire(_, ttl) => 0 < ttl < 10_000_000
       case _ => true
  }

  function CmdText(cmd: Cmd): string
    requires Sendable(cmd)
  {
    JoinWords(Args(cmd))
  }

  lemma UsernameWord(user: string)
    requires UsernameOk(user)
    ensures Free(user, SPECIAL)
  {
  }

  lemma HexWord(s: string, n: nat)
    requires HexToken(s, n)
    ensures Free(s, SPECIAL)
  {
  }

  lemma RestWord(k: Key)
    requires KeyFits(k)
    ensures Free(KeyRest(k), SPECIAL) && |KeyRest(k)| <= 53
  {
    match k
    case SessKey(_, user, salt) =>
      UsernameWord(user);
      HexWord(salt, SALT_LEN);
      FreeCat(user, ":", SPECIAL);
      FreeCat(user + ":", salt, SPECIAL);
    case FailedKey(_, ip) => FreeCat(ip, ":count", SPECIAL);
    case OkKey(_, _) =>
    case UserKey(_, user) => UsernameWord(user);
  }

  lemma KeyWord(k: Key)
    requires KeyFits(k)
    ensures WordOk(KeyText(k)) && |KeyText(k)| <= 66
  {
    hide KeyTag, KeyRest, KeyFits;
    TagFree(k);
    RestWord(k);
    FreeCat(KeyTag(k), ":", SPECIAL);
    FreeCat(KeyTag(k) + ":", KeyRest(k), SPECIAL);
  }

  lemma LiteralWords()
    ensures WordOk("GET") && WordOk("HGET") && WordOk("EXISTS") && WordOk("INCR") && WordOk("EXPIRE") && WordOk("SET")
    ensures WordOk("EX") && WordOk("HSET") && WordOk("hash") && WordOk("salt") && WordOk("level") && WordOk("status")
  {
  }

  lemma ArgsAreWords(cmd: Cmd)
    requires Sendable(cmd)
    ensures forall word :: word in Args(cmd) ==> WordOk(word) && |word| <= 66
  {
    hide KeyText, KeyFits, WordOk, DecText;
    KeyWord(cmd.key);
    LiteralWords();
    if cmd.SetEx? || cmd.Expire? { DecTextWord(cmd.ttl); }
    if cmd.HSet? {
      assert ValueFits(cmd.fields["hash"]) && ValueFits(cmd.fields["salt"]);
      assert ValueFits(cmd.fields["level"]) && ValueFits(cmd.fields["status"]);
    }
  }

  lemma {:induction false} JoinLength(words: seq<string>)
    requires forall word :: word in words ==> |word| <= 66
    ensures |JoinWords(words)| <= 67 * |words|
    decreases |words|
  {
    if |words| == 1 { assert words[0] in words; }
    if |words| > 1 {
      assert words[0] in words;
      assert forall other :: other in words[1..] ==> other in words;
      JoinLength(words[1..]);
    }
  }

  // ----- What the store reads -----

  /** The word is the text of this key. */
  predicate KeyReads(word: string, k: Key) {
    var name := match k.ty case Signup => "signup" case Login => "login" case Admin => "admin";
    match k
    case SessKey(_, user, salt) => word == name + "_sess:" + user + ":" + salt
    case OkKey(_, ip) => word == name + "OK:" + ip
    case FailedKey(_, ip) => word == name + "Failed:" + ip + ":count"
    case UserKey(_, user) => word == name + "User:" + user
  }

  /** The words are this command in the store's own syntax; lifetimes are decimal numerals. */
  predicate Reads(words: seq<string>, cmd: Cmd) {
    && |words| >= 2 && KeyReads(words[1], cmd.key)
    && match cmd
       case Get(_) => words == ["GET", words[1]]
       case HGet(_, field) => words == ["HGET", words[1], field]
       case Exists(_) => words == ["EXISTS", words[1]]
       case Incr(_) => words == ["INCR", words[1]]
       case Expire(_, ttl) => |words| == 3 && words[0] == "EXPIRE" && Numeral(words[2], ttl)
       case SetEx(_, text, ttl) => |words| == 5 && words[..4] == ["SET", words[1], text, "EX"] && Numeral(words[4], ttl)
       case HSet(_, f) =>
         && f.Keys == {"hash", "salt", "level", "status"}
         && words == ["HSET", words[1],
                      "hash", f["hash"], "salt", f["salt"], "level", f["level"], "status", f["status"]]
  }

  lemma KeyTextReads(k: Key)
    ensures KeyReads(KeyText(k), k)
  {
    match k
    case SessKey(_, user, salt) => assert "_sess" + ":" == "_sess:";
    case OkKey(_, _) => assert "OK" + ":" == "OK:";
    case FailedKey(ty, ip) => FailedText(ty, ip);
    case UserKey(_, _) => assert "User" + ":" == "User:";
  }

  lemma ArgsRead(cmd: Cmd)
    requires cmd.HSet? ==> cmd.fields.Keys == RECORD_FIELDS
    requires cmd.SetEx? || cmd.Expire? ==> cmd.ttl >= 0
    ensures Reads(Args(cmd), cmd)
  {
    hide KeyText, KeyReads, DecText, Numeral, KeyFits, ValueFits;
    KeyTextReads(cmd.key);
    if cmd.SetEx? || cmd.Expire? { DecTextReads(cmd.ttl); }
  }

  const CMD_BUF := 1024

  /** Command text is faithful: it fits the buffer with its NUL, holds no format sign, and
      the client library cuts it into exactly the intended arguments, which the store reads as
      the command that was meant, lifetime included. */
  lemma CommandFaithful(cmd: Cmd)
    requires Sendable(cmd)
    ensures |CmdText(cmd)| < 1024
    ensures Free(CmdText(cmd), {'%', '\0'})
    ensures Tokens(CmdText(cmd), SPACE) == Args(cmd) && Reads(Args(cmd), cmd)
  {
    ArgsRead(cmd);
    hide Reads, Args, JoinWords, WordOk, KeyFits, ValueFits;
    ArgsAreWords(cmd);
    WordsUnspaced(Args(cmd));
    SplitUndoesJoin(Args(cmd));
    JoinFree(Args(cmd));
    JoinLength(Args(cmd));
    assert |Args(cmd)| <= 10 by { ArgsFew(cmd); }
  }

  lemma ArgsFew(cmd: Cmd)
    requires Sendable(cmd)
    ensures |Args(cmd)| <= 10
  {
  }

  lemma FieldsAgree(f: map<string, string>, g: map<string, string>)
    requires f.Keys == RECORD_FIELDS == g.Keys
    requires f["hash"] == g["hash"] && f["salt"] == g["salt"] && f["level"] == g["level"] && f["status"] == g["status"]
    ensures f == g
  {
  }

  lemma SizedKey(k: Key)
    requires KeyFits(k)
    ensures SaltSized(k)
  {
  }

  lemma VerbTells(a: Cmd, b: Cmd)
    requires Sendable(a) && Sendable(b) && Args(a) == Args(b)
    ensures a.Get? <==> b.Get?
    ensures a.HGet? <==> b.HGet?
    ensures a.Exists? <==> b.Exists?
    ensures a.Incr? <==> b.Incr?
    ensures a.Expire? <==> b.Expire?
    ensures a.SetEx? <==> b.SetEx?
    ensures KeyText(a.key) == KeyText(b.key)
  {
    hide KeyText, DecText, KeyFits, ValueFits;
    var verb := Args(a)[0];
    assert Args(b)[0] == verb;
    assert KeyText(a.key) == Args(a)[1] && KeyText(b.key) == Args(b)[1];
    assert "GET"[0] == 'G' && "HGET"[1] == 'G' && "EXISTS"[2] == 'I' && "EXPIRE"[2] == 'P' && "HSET"[1] == 'S';
  }

  /** The text determines the command: verb, key, values and lifetime. */
  lemma TextDeterminesCommand(a: Cmd, b: Cmd)
    requires Sendable(a) && Sendable(b) && CmdText(a) == CmdText(b)
    ensures a == b
  {
    hide KeyText, DecText, KeyFits, JoinWords;
    CommandFaithful(a);
    CommandFaithful(b);
    VerbTells(a, b);
    SizedKey(a.key);
    SizedKey(b.key);
    KeyTextInjective(a.key, b.key);
    if a.SetEx? {
      assert DecText(a.ttl) == Args(a)[4] == Args(b)[4];
      DecTextInjective(a.ttl, b.ttl);
      assert a.text == Args(a)[2] == Args(b)[2];
    } else if a.Expire? {
      assert DecText(a.ttl) == Args(a)[2] == Args(b)[2];
      DecTextInjective(a.ttl, b.ttl);
    } else if a.HGet? {
      assert a.field == Args(a)[2] == Args(b)[2];
    } else if a.HSet? {
      assert a.fields["hash"] == Args(a)[3] == Args(b)[3] && a.fields["salt"] == Args(a)[5] == Args(b)[5];
      assert a.fields["level"] == Args(a)[7] == Args(b)[7] && a.fields["status"] == Args(a)[9] == Args(b)[9];
      FieldsAgree(a.fields, b.fields);
    }
  }

  // ----- Building and taking apart command buffers -----

  /** What redis_set_hset_key_value leaves in its buffer for a formatted text. */
  function SetHsetText(bare: string, ttl: int): string {
    var kept := Cut(bare, CMD_BUF - 1);
    if StartsAt(kept, 0, "SET ") && ttl > 0 then Cut(kept + (" EX " + DecText(ttl)), CMD_BUF - 1) else kept
  }

  method BuildSetHset(bare: string, ttl: int) returns (cmdBuf: array<char>, isHset: bool)
    requires Free(bare, NUL)
    ensures cmdBuf.Length == 1024 && CText(cmdBuf[..]) == SetHsetText(bare, ttl)
    ensures isHset <==> !("SET " <= bare)
    ensures CText(cmdBuf[..])
         == if isHset || ttl <= 0 then Cut(bare, 1023) else Cut(Cut(bare, 1023) + (" EX " + DecText(ttl)), 1023)
  {
    cmdBuf := new char[CMD_BUF];
    PutText(cmdBuf, bare);
    PrefixStarts(bare, "SET ");
    isHset := true;
    if StartsAt(CText(cmdBuf[..]), 0, "SET ") {
      isHset := false;
      if ttl > 0 {
        FreeCat(" EX ", DecText(ttl), NUL);
        AddText(cmdBuf, " EX " + DecText(ttl));
      }
    }
  }

  lemma PrefixStarts(s: string, p: string)
    ensures StartsAt(s, 0, p) <==> p <= s
  {
  }

  /** The key that the second half of redis_set_hset_key_value cuts out for EXPIRE. */
  function KeyInText(text: string): (int, string)
    requires |text| >= 6
  {
    var from := if StartsAt(text, 0, "HSET ") then 5 else 6;
    match IndexOf(text, " ", from)
    case None => (135027, "")
    case Some(end) => if end - from >= 512 then (135028, "") else (0, text[from..end])
  }

  method ExtractKey(cmdBuf: array<char>) returns (rt: int, key: string)
    requires 6 <= |CText(cmdBuf[..])| < cmdBuf.Length
    ensures (rt, key) == KeyInText(CText(cmdBuf[..]))
    ensures var text := CText(cmdBuf[..]);
            var from := if "HSET " <= text then 5 else 6;
            match IndexOf(text, " ", from)
            case None => rt == 135027
            case Some(end) => if end - from >= 512 then rt == 135028 else rt == 0 && key == text[from..end]
  {
    PrefixStarts(CText(cmdBuf[..]), "HSET ");
    hide IndexOf, StartsAt, Cut;
    ghost var text := CText(cmdBuf[..]);
    var keyBuf := new char[512](_ => '\0');
    var from := if StartsAt(CText(cmdBuf[..]), 0, "HSET ") then 5 else 6;
    var end := FindSpace(cmdBuf, from);
    if end == |CText(cmdBuf[..])| { return 135027, ""; }
    if end - from >= keyBuf.Length { return 135028, ""; }
    var found := cmdBuf[from..end];
    CTextPrefix(cmdBuf[..], from, end);
    assert found == text[from..end];
    CopyKey(keyBuf, found);
    return 0, CText(keyBuf[..]);
  }

  /** strchr(buf + from, ' '): the position of the space, or of the NUL if there is none. */
  method FindSpace(buf: array<char>, from: nat) returns (end: nat)
    requires from <= |CText(buf[..])| < buf.Length
    ensures from <= end <= |CText(buf[..])|
    ensures IndexOf(CText(buf[..]), " ", from) == if end == |CText(buf[..])| then None else Some(end)
  {
    hide IndexOf;
    ghost var text := CText(buf[..]);
    end := from;
    while buf[end] != '\0' && buf[end] != ' '
      invariant from <= end <= |text|
      invariant forall j :: from <= j < end ==> !StartsAt(text, j, " ")
      decreases |text| - end
    {
      DiffersAt(text, end, " ", 0);
      end := end + 1;
    }
    if buf[end] == ' ' {
      assert StartsAt(text, end, " ");
      IndexIs(text, " ", from, end);
    } else {
      NoIndex(text, " ", from, end);
    }
  }

  lemma NoIndex(s: string, p: string, from: nat, end: nat)
    requires p != "" && end == |s| && forall j :: from <= j < end ==> !StartsAt(s, j, p)
    ensures IndexOf(s, p, from) == None
  {
  }

  /** strncpy into a zeroed buffer and the closing NUL. */
  method CopyKey(keyBuf: array<char>, found: string)
    requires |found| < keyBuf.Length && Free(found, NUL)
    modifies keyBuf
    ensures CText(keyBuf[..]) == found
  {
    var i := 0;
    while i < |found|
      invariant 0 <= i <= |found|
      invariant keyBuf[..i] == found[..i]
    {
      keyBuf[i] := found[i];
      assert keyBuf[..i + 1] == keyBuf[..i] + [found[i]];
      i := i + 1;
    }
    keyBuf[i] := '\0';
    assert found[..|found|] == found;
    CTextIs(keyBuf[..], found);
  }

  /** The text a caller's format yields, before the lifetime is appended. */
  function BareText(cmd: Cmd): string
    requires Sendable(cmd) && (cmd.SetEx? || cmd.HSet?)
  {
    if cmd.SetEx? then "SET " + KeyText(cmd.key) + " " + cmd.text
    else
      "HSET " + KeyText(cmd.key) + " hash " + cmd.fields["hash"] + " salt " + cmd.fields["salt"]
      + " level " + cmd.fields["level"] + " status " + cmd.fields["status"]
  }

  lemma Join2(a: string, b: string, words: seq<string>)
    requires words != []
    ensures JoinWords([a, b] + words) == a + " " + b + " " + JoinWords(words)
  {
    var all := [a, b] + words;
    assert all[1..] == [b] + words && all[1..][1..] == words;
    assert b + " " + JoinWords(words) == JoinWords([b] + words);
    assert a + " " + (b + " " + JoinWords(words)) == a + " " + b + " " + JoinWords(words);
  }

  lemma JoinPair(a: string, b: string)
    ensures JoinWords([a, b]) == a + " " + b
  {
    assert [a, b][1..] == [b];
  }

  lemma SetText(key: string, text: string, ttl: string)
    ensures JoinWords(["SET", key, text, "EX", ttl]) == ("SET " + key + " " + text) + (" EX " + ttl)
  {
    hide JoinWords;
    Join2("SET", key, [text, "EX", ttl]);
    Join2(text, "EX", [ttl]);
    JoinOne(ttl);
    assert ["SET", key] + [text, "EX", ttl] == ["SET", key, text, "EX", ttl];
    assert [text, "EX"] + [ttl] == [text, "EX", ttl];
    assert "SET" + " " == "SET " && " " + "EX" + " " == " EX ";
    SetRegroup(key, text, ttl);
  }

  lemma SetRegroup(key: string, text: string, ttl: string)
    ensures "SET" + " " + key + " " + (text + " " + "EX" + " " + ttl) == ("SET " + key + " " + text) + (" EX " + ttl)
  {
  }

  lemma JoinOne(a: string)
    ensures JoinWords([a]) == a
  {
  }

  /** The words of an HSET joined pair by pair. */
  lemma HsetText(key: string, hash: string, salt: string, level: string, status: string)
    ensures JoinWords(["HSET", key, "hash", hash, "salt", salt, "level", level, "status", status])
         == "HSET " + key + " hash " + hash + " salt " + salt + " level " + level + " status " + status
  {
    hide JoinWords;
    var w4 := ["status", status];
    var w3 := ["level", level] + w4;
    var w2 := ["salt", salt] + w3;
    var w1 := ["hash", hash] + w2;
    Join2("HSET", key, w1);
    Join2("hash", hash, w2);
    Join2("salt", salt, w3);
    Join2("level", level, w4);
    JoinPair("status", status);
    assert ["HSET", key] + w1 == ["HSET", key, "hash", hash, "salt", salt, "level", level, "status", status];
    var p1 := "HSET " + key + " hash " + hash;
    var p2 := p1 + " salt " + salt;
    Glue("HSET " + key, "hash", hash, JoinWords(w2));
    Glue(p1, "salt", salt, JoinWords(w3));
    Glue(p2, "level", level, JoinWords(w4));
    GlueLast(p2 + " level " + level, "status", status);
    assert "HSET" + " " == "HSET " && " " + "hash" + " " == " hash " && " " + "salt" + " " == " salt "
        && " " + "level" + " " == " level " && " " + "status" + " " == " status ";
  }

  lemma Glue(front: string, name: string, value: string, rest: string)
    ensures front + " " + (name + " " + value + " " + rest) == front + (" " + name + " ") + value + " " + rest
  {
  }

  lemma GlueLast(front: string, name: string, value: string)
    ensures front + " " + (name + " " + value) == front + (" " + name + " ") + value
  {
  }

  lemma BareSet(cmd: Cmd)
    requires Sendable(cmd) && cmd.SetEx?
    ensures CmdText(cmd) == BareText(cmd) + (" EX " + DecText(cmd.ttl))
    ensures StartsAt(BareText(cmd), 0, "SET ")
  {
    hide JoinWords, KeyText, KeyFits, ValueFits, DecText;
    SetText(KeyText(cmd.key), cmd.text, DecText(cmd.ttl));
    assert BareText(cmd)[0..4] == "SET ";
  }

  lemma BareHset(cmd: Cmd)
    requires Sendable(cmd) && cmd.HSet?
    ensures CmdText(cmd) == BareText(cmd) && !StartsAt(BareText(cmd), 0, "SET ")
  {
    hide JoinWords, KeyText, KeyFits, ValueFits;
    HsetText(KeyText(cmd.key), cmd.fields["hash"], cmd.fields["salt"], cmd.fields["level"], cmd.fields["status"]);
    assert BareText(cmd)[0] == 'H';
    DiffersAt(BareText(cmd), 0, "SET ", 0);
  }

  lemma PrefixFree(a: string, b: string, seps: set<char>)
    requires Free(a + b, seps)
    ensures Free(a, seps)
  {
    assert forall i :: 0 <= i < |a| ==> a[i] == (a + b)[i];
  }

  /** The buffer of redis_set_hset_key_value ends up holding the whole command. */
  lemma BuiltText(cmd: Cmd, ttl: int)
    requires Sendable(cmd) && (cmd.SetEx? || cmd.HSet?) && ttl > 0 && (cmd.SetEx? ==> cmd.ttl == ttl)
    ensures SetHsetText(BareText(cmd), ttl) == CmdText(cmd)
    ensures StartsAt(BareText(cmd), 0, "SET ") <==> cmd.SetEx?
    ensures Free(BareText(cmd), NUL)
  {
    hide BareText, CmdText, Sendable, DecText, StartsAt;
    CommandFaithful(cmd);
    if cmd.SetEx? {
      BareSet(cmd);
      PrefixFree(BareText(cmd), " EX " + DecText(ttl), {'%', '\0'});
    } else {
      BareHset(cmd);
    }
  }

  /** The key cut out for EXPIRE is the key HSET wrote. */
  lemma ExpireKeyIsHsetKey(cmd: Cmd)
    requires Sendable(cmd) && cmd.HSet?
    ensures |CmdText(cmd)| >= 6 && KeyInText(CmdText(cmd)) == (0, KeyText(cmd.key))
  {
    hide KeyText, KeyFits, ValueFits;
    KeyWord(cmd.key);
    var text, key := CmdText(cmd), KeyText(cmd.key);
    var rest := JoinWords(Args(cmd)[2..]);
    Join2("HSET", key, Args(cmd)[2..]);
    assert ["HSET", key] + Args(cmd)[2..] == Args(cmd);
    var end := 5 + |key|;
    assert text[0..5] == "HSET " && text[5..end] == key && text[end..end + 1] == " ";
    forall j | 5 <= j < end ensures !StartsAt(text, j, " ") {
      assert text[j] == key[j - 5];
      DiffersAt(text, j, " ", 0);
    }
    IndexIs(text, " ", 5, end);
  }

  /** Both texts that redis_set_hset_key_value sends: the command itself, and for a hash
      the EXPIRE of the very key it wrote. */
  method SetHsetTexts(cmd: Cmd, ttl: int) returns (first: string, second: Option<string>)
    requires Sendable(cmd) && (cmd.SetEx? || cmd.HSet?) && 0 < ttl < 10_000_000 && (cmd.SetEx? ==> cmd.ttl == ttl)
    ensures first == CmdText(cmd)
    ensures second == if cmd.HSet? then Some(CmdText(Expire(cmd.key, ttl))) else None
    ensures Reads(Tokens(first, SPACE), cmd)
    ensures second.Some? ==> Reads(Tokens(second.value, SPACE), Expire(cmd.key, ttl))
  {
    hide KeyText, KeyFits, ValueFits, DecText;
    BuiltText(cmd, ttl);
    CommandFaithful(cmd);
    var cmdBuf, isHset := BuildSetHset(BareText(cmd), ttl);
    first := CText(cmdBuf[..]);
    if !isHset || ttl <= 0 { return first, None; }
    ExpireKeyIsHsetKey(cmd);
    var rt, key := ExtractKey(cmdBuf);
    ExpireText(cmd.key, ttl);
    CommandFaithful(Expire(cmd.key, ttl));
    return first, Some("EXPIRE " + key + " " + DecText(ttl));
  }

  lemma ExpireText(k: Key, ttl: int)
    requires KeyFits(k) && 0 < ttl < 10_000_000
    ensures Sendable(Expire(k, ttl)) && CmdText(Expire(k, ttl)) == "EXPIRE " + KeyText(k) + " " + DecText(ttl)
  {
    hide JoinWords, KeyText, KeyFits, DecText;
    Join2("EXPIRE", KeyText(k), [DecText(ttl)]);
    JoinOne(DecText(ttl));
    assert ["EXPIRE", KeyText(k)] + [DecText(ttl)] == ["EXPIRE", KeyText(k), DecText(ttl)]
        && "EXPIRE" + " " == "EXPIRE ";
  }

  /** Both texts of redis_increment, from its own key buffer. */
  method IncrementTexts(ty: PostType, ip: string, ttl: int) returns (incr: string, expire: string)
    requires IpText(ip) && 0 < ttl < 10_000_000
    ensures incr == CmdText(Incr(FailedKey(ty, ip))) && expire == CmdText(Expire(FailedKey(ty, ip), ttl))
    ensures Reads(Tokens(incr, SPACE), Incr(FailedKey(ty, ip)))
    ensures Reads(Tokens(expire, SPACE), Expire(FailedKey(ty, ip), ttl))
  {
    hide JoinWords, KeyText, DecText, CText, IpText;
    var k := FailedKey(ty, ip);
    FailedFits(ty, ip);
    KeyWord(k);
    var srcBuf := new char[CMD_BUF];
    var key := TypeStr(ty) + "Failed:" + ip + ":count";
    assert key == KeyText(k) by { FailedText(ty, ip); }
    PutText(srcBuf, key);
    incr := "INCR " + CText(srcBuf[..]);
    expire := "EXPIRE " + CText(srcBuf[..]) + " " + DecText(ttl);
    ExpireText(k, ttl);
    JoinPair("INCR", key);
    assert "INCR" + " " == "INCR ";
    CommandFaithful(Incr(k));
    CommandFaithful(Expire(k, ttl));
  }

  lemma FailedFits(ty: PostType, ip: string)
    requires IpText(ip)
    ensures KeyFits(FailedKey(ty, ip))
  {
  }

  lemma FailedText(ty: PostType, ip: string)
    ensures TypeStr(ty) + "Failed:" + ip + ":count" == KeyText(FailedKey(ty, ip))
  {
    assert Family(FailedKey(ty, ip)) + ":" == "Failed:";
    assert TypeStr(ty) + "Failed" + ":" + (ip + ":count") == TypeStr(ty) + ("Failed" + ":") + ip + ":count";
  }

  // ----- The flag command of a printed text -----

  lemma {:induction false} TokensCat(a: string, b: string)
    ensures Tokens(a + " " + b, SPACE) == Tokens(a, SPACE) + Tokens(b, SPACE)
    decreases |a|
  {
    var s := a + " " + b;
    if a == "" {
      assert s == " " + b && s[1..] == b;
    } else if a[0] == ' ' {
      assert s[1..] == a[1..] + " " + b;
      TokensCat(a[1..], b);
    } else {
      var n := SpanLen(a, SPACE);
      assert forall i :: 0 <= i < n ==> s[i] == a[i];
      assert s[n] == ' ' by { if n < |a| { assert s[n] == a[n]; } }
      SpanIs(s, SPACE, n);
      assert s[..n] == a[..n] && s[n..] == a[n..] + " " + b;
      TokensCat(a[n..], b);
    }
  }

  lemma {:induction false} SomeToken(s: string, k: nat)
    requires k < |s| && s[k] != ' '
    ensures Tokens(s, SPACE) != []
    decreases |s|
  {
    if s[0] == ' ' { SomeToken(s[1..], k - 1); }
  }

  /** Spaces at the end of a text leave no trace in its words. */
  lemma {:induction false} TrailingSpacesVanish(front: string, t: string)
    ensures Tokens(front + t, SPACE) == Tokens(front + TrimRight(t), SPACE)
    decreases |t|
  {
    if t != "" && t[|t| - 1] == ' ' {
      var shorter := t[..|t| - 1];
      assert front + t == (front + shorter) + " " + "";
      TokensCat(front + shorter, "");
      NoTokens(SPACE);
      TrailingSpacesVanish(front, shorter);
    }
  }

  lemma {:induction false} TrimmedEnd(t: string)
    ensures TrimRight(t) != "" ==> TrimRight(t)[|TrimRight(t)| - 1] != ' '
    decreases |t|
  {
    if t != "" && t[|t| - 1] == ' ' { TrimmedEnd(t[..|t| - 1]); }
  }

  /** A word with a text behind it: one word if the trimmed text holds no space, several if
      it holds one. */
  lemma WordsOfKey(front: string, t: string)
    requires front != "" && Free(front, SPACE)
    ensures Free(TrimRight(t), SPACE) ==> Tokens(front + t, SPACE) == [front + TrimRight(t)]
    ensures ' ' in TrimRight(t) ==> |Tokens(front + t, SPACE)| >= 2
  {
    var core := TrimRight(t);
    TrailingSpacesVanish(front, t);
    if Free(core, SPACE) {
      var s := front + core;
      FreeCat(front, core, SPACE);
      TokenAt(s, SPACE, 0, |s|);
      assert s[0..] == s && s[0..|s|] == s && s[|s|..] == "";
    } else {
      TrimmedEnd(t);
      var i :| 0 <= i < |core| && core[i] == ' ';
      var x, y := front + core[..i], core[i + 1..];
      assert front + core == x + " " + y;
      TokensCat(x, y);
      assert x[0] == front[0];
      SomeToken(x, 0);
      assert y[|y| - 1] == core[|core| - 1];
      SomeToken(y, |y| - 1);
    }
  }

  /** What redis_set_hset_key_value sends for the printed flag text t. */
  function FlagText(t: string): string {
    SetHsetText("SET signupOK:" + t + " 1", SIGNUP_OK_TTL)
  }

  lemma FlagTextParts(t: string)
    requires |t| <= IP_MAX_LEN
    ensures FlagText(t) == "SET" + " " + (("signupOK:" + t) + " " + ("1" + " " + ("EX" + " " + DecText(SIGNUP_OK_TTL))))
  {
    hide DecText;
    var bare := "SET signupOK:" + t + " 1";
    DecTextWord(SIGNUP_OK_TTL);
    assert bare[0..4] == "SET ";
    var ttl := DecText(SIGNUP_OK_TTL);
    assert "SET signupOK:" == "SET" + " " + "signupOK:" && " 1" == " " + "1" && " EX " == " " + "EX" + " ";
    assert bare + (" EX " + ttl) == "SET" + " " + (("signupOK:" + t) + " " + ("1" + " " + ("EX" + " " + ttl)));
  }

  /** Which printed texts make a command that sets a flag: exactly those without a space before
      their end. The store then sees the key with the trimmed text; any other text gives the
      SET a word too many. */
  lemma FlagCommandSplits(t: string)
    requires |t| <= IP_MAX_LEN
    ensures Free(TrimRight(t), SPACE) ==>
              && Tokens(FlagText(t), SPACE) == Args(SetEx(OkKey(Signup, TrimRight(t)), "1", SIGNUP_OK_TTL))
              && Reads(Tokens(FlagText(t), SPACE), SetEx(OkKey(Signup, TrimRight(t)), "1", 3600))
    ensures ' ' in TrimRight(t) ==> |Tokens(FlagText(t), SPACE)| >= 6
    ensures Tokens(FlagText(t), SPACE) == Args(SetEx(OkKey(Signup, TrimRight(t)), "1", SIGNUP_OK_TTL))
       <==> Free(TrimRight(t), SPACE)
  {
    hide FlagText, DecText, TrimRight, Tokens, Reads;
    FlagTextParts(t);
    var ttl := DecText(SIGNUP_OK_TTL);
    DecTextWord(SIGNUP_OK_TTL);
    var last, tail := "EX" + " " + ttl, "1" + " " + ("EX" + " " + ttl);
    TokensCat("SET", ("signupOK:" + t) + " " + tail);
    TokensCat("signupOK:" + t, tail);
    TokensCat("1", last);
    TokensCat("EX", ttl);
    PlainToken("SET");
    PlainToken("1");
    PlainToken("EX");
    PlainToken(ttl);
    WordsOfKey("signupOK:", t);
    FlagKeyText(TrimRight(t));
    ArgsRead(SetEx(OkKey(Signup, TrimRight(t)), "1", SIGNUP_OK_TTL));
    if !Free(TrimRight(t), SPACE) {
      var i :| 0 <= i < |TrimRight(t)| && TrimRight(t)[i] in SPACE;
    }
  }

  lemma PlainToken(word: string)
    requires WordOk(word)
    ensures Tokens(word, SPACE) == [word]
  {
    TokenAt(word, SPACE, 0, |word|);
    assert word[0..] == word && word[0..|word|] == word && word[|word|..] == "";
  }

  lemma FlagKeyText(ip: string)
    ensures KeyText(OkKey(Signup, ip)) == "signupOK:" + ip
  {
    assert "signup" + "OK" + ":" == "signupOK:";
  }

  /** A command is executed as it is meant when its text is faithful. */
  lemma SendableIsIntact(cmd: Cmd)
    requires Sendable(cmd)
    ensures Intact(cmd)
  {
  }
}
