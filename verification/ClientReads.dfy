/** What the browser gets out of the bytes of a session response: the cookie it stores
    (section 5.2 of RFC 6265) and the members of the JSON body. The reader covers the
    part of JSON that the daemon writes: one flat object, strings without escapes,
    non-negative integers (src/send_response_sess.c, signup_html/form_submit_session-manager.js). */
module ClientReads {
  import opened Common
  import opened TextScan
  import opened HttpText
  import opened HttpParser
  import opened Cookies
  import opened Protocol
  import opened Client
  import opened Responses

  // ----- JSON -----

  const QUOTE: set<char> := {'"'}

  /** A quoted text at the start of s, and what follows it. */
  function ReadText(s: string): (r: Option<(string, string)>)
    ensures r.Some? ==> |r.value.1| < |s|
  {
    if s == "" || s[0] != '"' then None
    else
      var n := SpanLen(s[1..], QUOTE);
      if n + 1 == |s| then None else Some((s[1..n + 1], s[n + 2..]))
  }

  function DigitsLen(s: string): (n: nat)
    ensures n <= |s| && forall i :: 0 <= i < n ==> IsDigit(s[i])
  {
    if s == "" || !IsDigit(s[0]) then 0 else 1 + DigitsLen(s[1..])
  }

  function ReadValue(s: string): (r: Option<(JsonValue, string)>)
    ensures r.Some? ==> |r.value.1| < |s|
  {
    if s != "" && s[0] == '"' then
      match ReadText(s)
      case None => None
      case Some((text, rest)) => Some((JsonString(text), rest))
    else
      var n := DigitsLen(s);
      if n == 0 then None else Some((JsonInt(DigitsValue(s[..n])), s[n..]))
  }

  /** Members up to the closing brace; of two members with one name the later wins. */
  function ReadMembers(s: string): Option<Json>
    decreases |s|
  {
    match ReadText(DropSpaces(s))
    case None => None
    case Some((name, afterName)) =>
      if afterName == "" || afterName[0] != ':' then None
      else match ReadValue(DropSpaces(afterName[1..]))
        case None => None
        case Some((value, rest)) =>
          var more := if rest == "" || rest[0] != ',' then None else ReadMembers(rest[1..]);
          AddMember(name, value, rest, more)
  }

  function AddMember(name: string, value: JsonValue, rest: string, more: Option<Json>): Option<Json> {
    if rest == "}" then Some(map[name := value])
    else if rest == "" || rest[0] != ',' || more.None? then None
    else Some(if name in more.value then more.value else more.value[name := value])
  }

  function ReadJson(s: string): Option<Json> {
    if s == "" || s[0] != '{' then None else ReadMembers(s[1..])
  }

  lemma QuotedIsRead(text: string, rest: string)
    requires Free(text, QUOTE)
    ensures ReadText("\"" + text + "\"" + rest) == Some((text, rest))
  {
    var s := "\"" + text + "\"" + rest;
    assert s[1..] == text + ("\"" + rest);
    assert forall i :: 0 <= i < |text| ==> s[1..][i] == text[i];
    SpanIs(s[1..], QUOTE, |text|);
    assert s[1..|text| + 1] == text && s[|text| + 2..] == rest;
  }

  /** ` "name": "value"` in front of a comma or the closing brace is read as a member. */
  lemma TextMemberIsRead(name: string, value: string, rest: string)
    requires Free(name, QUOTE) && Free(value, QUOTE) && rest != "" && (rest == "}" || rest[0] == ',')
    ensures ReadMembers(" \"" + name + "\": \"" + value + "\"" + rest)
         == AddMember(name, JsonString(value), rest, if rest == "}" then None else ReadMembers(rest[1..]))
  {
    hide ReadText, AddMember, DropSpaces;
    var tail := "\"" + value + "\"" + rest;
    var s := "\"" + name + "\"" + (": " + tail);
    MemberRegroup(name, value, rest);
    OneSpace(s);
    QuotedIsRead(name, ": " + tail);
    assert (": " + tail)[1..] == " " + tail;
    OneSpace(tail);
    QuotedIsRead(value, rest);
  }

  lemma MemberRegroup(name: string, value: string, rest: string)
    ensures " \"" + name + "\": \"" + value + "\"" + rest
            == " " + ("\"" + name + "\"" + (": " + ("\"" + value + "\"" + rest)))
  {
    assert "\": \"" == "\"" + ": " + "\"" && " \"" == " " + "\"";
  }

  lemma VersionIsRead(rest: string)
    requires rest != "" && rest[0] == ','
    ensures ReadMembers("\"ver\": 1" + rest) == AddMember("ver", JsonInt(1), rest, ReadMembers(rest[1..]))
  {
    hide ReadText, ReadValue, DropSpaces, AddMember;
    var s := "\"ver\": 1" + rest;
    VersionRegroup(rest);
    NoSpace(s);
    QuotedIsRead("ver", ": 1" + rest);
    assert (": 1" + rest)[1..] == " " + ("1" + rest);
    OneSpace("1" + rest);
    OneIsRead(rest);
  }

  lemma VersionRegroup(rest: string)
    ensures "\"ver\": 1" + rest == "\"" + "ver" + "\"" + (": 1" + rest)
  {
    assert "\"ver\": 1" == "\"" + "ver" + "\"" + ": 1";
  }

  lemma NoSpace(s: string)
    requires s != "" && s[0] != ' '
    ensures DropSpaces(s) == s
  {
  }

  lemma OneSpace(s: string)
    requires s != "" && s[0] != ' '
    ensures DropSpaces(" " + s) == s
  {
    assert (" " + s)[1..] == s;
  }

  lemma OneIsRead(rest: string)
    requires rest != "" && rest[0] == ','
    ensures ReadValue("1" + rest) == Some((JsonInt(1), rest))
  {
    var s := "1" + rest;
    assert s[1..] == rest && DigitsLen(s) == 1 && s[..1] == "1";
    assert DigitsValue("1") == 10 * DigitsValue("") + 1;
  }

  lemma NameFree(ty: PostType)
    ensures Free(CookieName(ty), QUOTE) && Free(SaltName(ty), QUOTE)
    ensures CookieName(ty) != "ver" && SaltName(ty) != "ver" && CookieName(ty) != SaltName(ty)
  {
    FreeCat(TypeStr(ty), "_sess", QUOTE);
    FreeCat(TypeStr(ty), "_salt", QUOTE);
    assert CookieName(ty)[|TypeStr(ty)| + 2] == 'e' && SaltName(ty)[|TypeStr(ty)| + 2] == 'a';
    assert |CookieName(ty)| > 3 && |SaltName(ty)| > 3;
  }

  /** The members after the version. */
  function SessMembers(ty: PostType, sesv: string, salt: Option<string>): string {
    " \"" + CookieName(ty) + "\": \"" + sesv + "\""
    + (if salt.None? then "}" else ", \"" + SaltName(ty) + "\": \"" + salt.value + "\"" + "}")
  }

  lemma BodyRegroup(ty: PostType, sesv: string, salt: Option<string>)
    ensures SessBody(ty, sesv, salt) == "{" + ("\"ver\": 1" + ("," + SessMembers(ty, sesv, salt)))
  {
    var name, middle := CookieName(ty), "\": \"";
    if salt.None? {
      assert "{\"ver\": 1, \"" + name + middle + sesv + "\"" + "" + "}"
          == "{\"ver\": 1, \"" + name + middle + sesv + "\"" + "}";
      Regroup5("{\"ver\": 1, \"", name, middle, sesv, "\"", "}");
    } else {
      var more := ", \"" + SaltName(ty) + "\": \"" + salt.value + "\"";
      SaltRegroup(TypeStr(ty), salt.value);
      Last("{\"ver\": 1, \"" + name + middle + sesv + "\"", more);
      Regroup5("{\"ver\": 1, \"", name, middle, sesv, "\"", more + "}");
    }
  }

  lemma Last(front: string, more: string)
    ensures front + more + "}" == front + (more + "}")
  {
  }

  lemma Regroup5(start: string, name: string, middle: string, value: string, quote: string, rest: string)
    requires start == "{\"ver\": 1, \""
    ensures start + name + middle + value + quote + rest
         == "{" + ("\"ver\": 1" + ("," + (" \"" + name + middle + value + quote + rest)))
  {
    var tail := name + (middle + (value + (quote + rest)));
    Flatten(start, name, middle, value, quote, rest);
    Flatten(" \"", name, middle, value, quote, rest);
    assert start == "{" + "\"ver\": 1" + "," + " \"";
    Nest("{", "\"ver\": 1", ",", " \"", tail);
  }

  lemma Flatten(a: string, b: string, c: string, d: string, e: string, f: string)
    ensures a + b + c + d + e + f == a + (b + (c + (d + (e + f))))
  {
  }

  lemma Nest(a: string, b: string, c: string, d: string, rest: string)
    ensures a + b + c + d + rest == a + (b + (c + (d + rest)))
  {
  }

  lemma SaltRegroup(ty: string, salt: string)
    ensures ", \"" + ty + "_salt\": \"" + salt + "\"" == ", \"" + (ty + "_salt") + "\": \"" + salt + "\""
  {
    assert "_salt\": \"" == "_salt" + "\": \"";
  }

  lemma MembersAreRead(ty: PostType, sesv: string, salt: Option<string>)
    requires Free(sesv, QUOTE) && (salt.Some? ==> Free(salt.value, QUOTE))
    ensures ReadMembers(SessMembers(ty, sesv, salt))
         == Some(if salt.None? then map[CookieName(ty) := JsonString(sesv)]
                 else map[CookieName(ty) := JsonString(sesv), SaltName(ty) := JsonString(salt.value)])
  {
    hide ReadMembers;
    NameFree(ty);
    if salt.None? {
      TextMemberIsRead(CookieName(ty), sesv, "}");
    } else {
      var last := " \"" + SaltName(ty) + "\": \"" + salt.value + "\"" + "}";
      assert ", \"" + SaltName(ty) + "\": \"" + salt.value + "\"" + "}" == "," + last;
      assert ("," + last)[1..] == last;
      TextMemberIsRead(SaltName(ty), salt.value, "}");
      TextMemberIsRead(CookieName(ty), sesv, "," + last);
      var one, two := JsonString(sesv), JsonString(salt.value);
      assert map[SaltName(ty) := two][CookieName(ty) := one] == map[CookieName(ty) := one, SaltName(ty) := two];
    }
  }

  /** The browser's JSON reader finds in a session body exactly what the daemon put in. */
  lemma BodyIsRead(r: Response)
    requires r.Session? && Free(r.sesv, QUOTE) && (r.salt.Some? ==> Free(r.salt.value, QUOTE))
    ensures ReadJson(SessBody(r.ty, r.sesv, r.salt)) == Some(SessionJson(r))
  {
    hide ReadMembers, SessBody, SessMembers;
    var members := SessMembers(r.ty, r.sesv, r.salt);
    BodyRegroup(r.ty, r.sesv, r.salt);
    MembersAreRead(r.ty, r.sesv, r.salt);
    NameFree(r.ty);
    var body := "\"ver\": 1" + ("," + members);
    assert ("{" + body)[1..] == body && ("," + members)[1..] == members;
    VersionIsRead("," + members);
    var read := ReadMembers(members).value;
    assert read["ver" := JsonInt(1)] == SessionJson(r);
  }

  // ----- Cookies -----

  const SET_COOKIE := "Set-Cookie: "

  /** Name and value: the part before the first semicolon, split at its first equals sign. */
  function SetCookiePair(text: string): (string, string) {
    var pair := text[..SpanLen(text, {';'})];
    var n := SpanLen(pair, {'='});
    (pair[..n], if n < |pair| then pair[n + 1..] else "")
  }

  /** The value of the last Set-Cookie line with that name. */
  function JarLookup(lines: seq<string>, name: string): Option<string> {
    if lines == [] then None
    else
      var line := lines[|lines| - 1];
      if SET_COOKIE <= line && SetCookiePair(line[|SET_COOKIE|..]).0 == name then
        Some(SetCookiePair(line[|SET_COOKIE|..]).1)
      else JarLookup(lines[..|lines| - 1], name)
  }

  lemma PairIsRead(name: string, value: string, attributes: string)
    requires Free(name, {'=', ';'}) && Free(value, {';'}) && attributes != "" && attributes[0] == ';'
    ensures SetCookiePair(name + "=" + value + attributes) == (name, value)
  {
    var pair := name + "=" + value;
    var text := pair + attributes;
    FreeCat(name, "=", {';'});
    FreeCat(name + "=", value, {';'});
    assert forall i :: 0 <= i < |pair| ==> text[i] == pair[i];
    SpanIs(text, {';'}, |pair|);
    assert text[..|pair|] == pair;
    assert forall i :: 0 <= i < |name| ==> pair[i] == name[i];
    SpanIs(pair, {'='}, |name|);
    assert pair[..|name|] == name && pair[|name| + 1..] == value;
  }

  lemma SessCookieIsRead(ty: PostType, sess: string)
    requires HexToken(sess, SALT_LEN)
    ensures SetCookiePair(SessCookie(ty, sess)) == (CookieName(ty), sess)
  {
    FreeCat(TypeStr(ty), "_sess", {'=', ';'});
    PairIsRead(CookieName(ty), sess, "; HttpOnly; Max-Age=300");
  }

  lemma LastSetCookie(lines: seq<string>, name: string, cookie: string, last: string)
    requires SetCookiePair(cookie).0 == name && !(SET_COOKIE <= last)
    ensures JarLookup(lines + [SET_COOKIE + cookie] + [last], name) == Some(SetCookiePair(cookie).1)
  {
    var front, line := lines + [SET_COOKIE + cookie], SET_COOKIE + cookie;
    assert (front + [last])[..|front|] == front && front[..|lines|] == lines;
    assert line[|SET_COOKIE|..] == cookie && SET_COOKIE <= line;
    assert JarLookup(front, name) == Some(SetCookiePair(cookie).1);
  }

  lemma LengthLineIsNoCookie(text: string)
    ensures !(SET_COOKIE <= "Content-Length: " + text)
  {
    assert ("Content-Length: " + text)[0] == 'C' && SET_COOKIE[0] == 'S';
  }

  /** The whole way from daemon to browser: the bytes of a session response, split at the
      first blank line, give the browser the cookie value that the daemon stored and the
      JSON members it meant. */
  lemma BrowserReadsSession(md5Cookie: string, r: Response)
    requires Md5CookieOk(md5Cookie) && r.Session?
    requires HexToken(r.sess, SALT_LEN) && HexToken(r.sesv, SALT_LEN)
    requires r.salt.Some? ==> HexToken(r.salt.value, SALT_LEN)
    ensures var bytes := Rendered(md5Cookie, r);
            && HeadEnd(bytes).Some?
            && JarLookup(Tokens(bytes[..HeadEnd(bytes).value], CRLF), CookieName(r.ty)) == Some(r.sess)
            && ReadJson(bytes[HeadEnd(bytes).value + 4..]) == Some(SessionJson(r))
  {
    hide ResponseBytes, HeadEnd, HeadText, DecText, CRLF, Tokens, JarLookup, ReadJson, SessBody, SessCookie, HexToken;
    assert ResponseOk(r) by { SessionSizes(r); }
    ResponseFits(md5Cookie, r);
    FramingExact(200, "OK", CookiesOf(md5Cookie, r), BodyOf(r));
    SessHead(md5Cookie, r);
    HexUnquoted(r);
    BodyIsRead(r);
  }

  lemma SessionSizes(r: Response)
    requires r.Session?
    requires HexToken(r.sess, SALT_LEN) && HexToken(r.sesv, SALT_LEN)
    requires r.salt.Some? ==> HexToken(r.salt.value, SALT_LEN)
    ensures ResponseOk(r)
  {
  }

  lemma HexUnquoted(r: Response)
    requires r.Session? && HexToken(r.sesv, SALT_LEN) && (r.salt.Some? ==> HexToken(r.salt.value, SALT_LEN))
    ensures Free(r.sesv, QUOTE) && (r.salt.Some? ==> Free(r.salt.value, QUOTE))
  {
  }

  lemma SessHead(md5Cookie: string, r: Response)
    requires r.Session? && HexToken(r.sess, SALT_LEN)
    ensures JarLookup(HeadLines(200, "OK", CookiesOf(md5Cookie, r), BodyOf(r)), CookieName(r.ty)) == Some(r.sess)
  {
    hide JarLookup, SessCookie, SessBody, DecText, HexToken, SetCookiePair;
    var cookie, n := SessCookie(r.ty, r.sess), |BodyOf(r).value|;
    SessCookieIsRead(r.ty, r.sess);
    LengthLineIsNoCookie(DecText(n));
    var cookies := CookiesOf(md5Cookie, r);
    assert cookies[..1] == [md5Cookie] && cookies[|cookies| - 1] == cookie;
    assert CookieLines(cookies) == CookieLines([md5Cookie]) + ["Set-Cookie: " + cookie];
    var front := ["HTTP/1.1 " + DecText(200) + " " + "OK", "Cache-Control: no-cache, no-store"]
        + CookieLines([md5Cookie]);
    assert HeadLines(200, "OK", cookies, BodyOf(r))
        == front + [SET_COOKIE + cookie] + ["Content-Length: " + DecText(n)];
    LastSetCookie(front, CookieName(r.ty), cookie, "Content-Length: " + DecText(n));
  }
}
