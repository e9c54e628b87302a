/** The browser: what it asks, what it accepts, what it submits
    (signup_html/calc_passHash.js, signup_html/form_submit_session-manager.js). */
module Client {
  import opened Common
  import opened TextScan
  import opened HttpText
  import opened HttpParser
  import opened Validators
  import opened Hashing
  import opened Cookies
  import opened PostPath
  import opened Protocol

  /** The body of the first request of a signup or login. */
  function AskBody(user: string): Json {
    map["ver" := JsonInt(1), "username" := JsonString(user)]
  }

  /** The members of the JSON body of a session response. */
  function SessionJson(r: Response): Json
    requires r.Session?
  {
    var base := map["ver" := JsonInt(1), CookieName(r.ty) := JsonString(r.sesv)];
    if r.salt.None? then base else base[SaltName(r.ty) := JsonString(r.salt.value)]
  }

  /** jsonGetHexLen: version 1, a string of exactly `len` lowercase hex digits. */
  function JsonGetHexLen(json: Json, name: string, len: nat): (r: Option<string>)
    ensures r.Some? ==> HexToken(r.value, len) && r.value != ""
    ensures r.Some? <==> "ver" in json && json["ver"] == JsonInt(1) && name in json && json[name].JsonString?
                         && 0 < len == |json[name].s|
                         && forall i :: 0 <= i < len ==> '0' <= json[name].s[i] <= '9' || 'a' <= json[name].s[i] <= 'f'
    ensures r.Some? ==> r.value == json[name].s
  {
    if "ver" !in json || json["ver"] != JsonInt(1) then None
    else if !StringMember(json, name) then None
    else if json[name].s == "" || !HexToken(json[name].s, len) then None
    else Some(json[name].s)
  }

  /** The body that calc_passHash returns: the tag of the password under the salt the
      server sent; at login hashed again under the session. None where it gives up: a
      missing salt becomes a text too short for the hash. */
  function SubmitBody(hash: Hasher, ty: PostType, user: string, password: string, json: Json): Option<Json> {
    var salt1 := JsonGetHexLen(json, if ty == Signup then "signup_sess" else "login_salt", 32);
    if salt1.None? || ty == Admin then None
    else
      var tag1 := SignupTag(hash, salt1.value, user, password);
      if ty == Signup then
        Some(map["ver" := JsonInt(1), "username" := JsonString(user), "signup_salt" := JsonString(salt1.value),
                 "passwd" := JsonString(tag1)])
      else
        var salt2 := JsonGetHexLen(json, "login_sess", 32);
        if salt2.None? then None
        else
          Some(map["ver" := JsonInt(1), "username" := JsonString(user), "login_salt" := JsonString(salt2.value),
                   "passwd" := JsonString(LoginTag(hash, salt1.value, salt2.value, user, password))])
  }

  predicate HasHex(json: Json, name: string) {
    name in json && json[name].JsonString? && HexToken(json[name].s, 32)
  }

  /** What is submitted, written out: at signup one hash of salt, name and password; at login
      that hash again, behind the session's salt and the name. */
  function SubmittedJson(argon: Argon, sha: Sha, ty: PostType, user: string, password: string, json: Json): Json
    requires HasHex(json, if ty == Signup then "signup_sess" else "login_salt")
    requires ty == Login ==> HasHex(json, "login_sess")
  {
    var salt1 := json[if ty == Signup then "signup_sess" else "login_salt"].s;
    var tag1 := HexText(sha(HexText(argon(salt1 + ":" + user + ":" + password, salt1))));
    if ty == Login then
      var salt2 := json["login_sess"].s;
      var tag2 := HexText(sha(HexText(argon(salt2 + ":" + user + ":" + tag1, salt2))));
      map["ver" := JsonInt(1), "username" := JsonString(user), "login_salt" := JsonString(salt2),
          "passwd" := JsonString(tag2)]
    else
      map["ver" := JsonInt(1), "username" := JsonString(user), "signup_salt" := JsonString(salt1),
          "passwd" := JsonString(tag1)]
  }

  /** The page: the hash takes its salt from a global variable set before each call. */
  class Page {
    var argon2saltsalt: string
    const argon: Argon
    const sha: Sha

    constructor (argon: Argon, sha: Sha)
      ensures this.argon == argon && this.sha == sha
    {
      this.argon, this.sha, argon2saltsalt := argon, sha, "argon2saltsalt";
    }

    /** fails1, fails2: what goes wrong in the first and in the second hash. A missing salt1
        makes the first hash fail: it would be the text "null", shorter than any salt that
        the hash takes. */
    method CalcPassHash(ty: PostType, user: string, password: string, json: Json, fails1: bool, fails2: bool)
      returns (body: Option<Json>)
      requires ty != Admin
      modifies this
      ensures body == if fails1 || (ty == Login && fails2) then None
                      else SubmitBody(Pipeline(argon, sha), ty, user, password, json)
      ensures body.Some? ==>
                && HasHex(json, if ty == Signup then "signup_sess" else "login_salt")
                && (ty == Login ==> HasHex(json, "login_sess"))
                && body.value == SubmittedJson(argon, sha, ty, user, password, json)
    {
      var salt1 := JsonGetHexLen(json, if ty == Signup then "signup_sess" else "login_salt", 32);
      if salt1.None? { return None; }
      argon2saltsalt := salt1.value;
      var tag1 := BrowserHash(argon, sha, fails1, salt1.value + ":" + user + ":" + password, argon2saltsalt);
      if tag1.None? { return None; }
      if ty == Signup {
        return Some(map["ver" := JsonInt(1), "username" := JsonString(user),
                        "signup_salt" := JsonString(salt1.value), "passwd" := JsonString(tag1.value)]);
      }
      var salt2 := JsonGetHexLen(json, "login_sess", 32);
      if salt2.None? { return None; }
      argon2saltsalt := salt2.value;
      var tag2 := BrowserHash(argon, sha, fails2, salt2.value + ":" + user + ":" + tag1.value, argon2saltsalt);
      if tag2.None? { return None; }
      return Some(map["ver" := JsonInt(1), "username" := JsonString(user),
                      "login_salt" := JsonString(salt2.value), "passwd" := JsonString(tag2.value)]);
    }
  }

  /** Every tag is a non-zero token of 64 hex digits. */
  ghost predicate TagsOk(hash: Hasher) {
    forall x, s :: HexOk(hash(x, s), PASSWD_LEN)
  }

  lemma LowerIsFixed(user: string)
    requires CleanUser(user)
    ensures Lowered(user) == user
  {
  }

  /** The server reads the first request as a request for a session. */
  lemma AskIsUnderstood(ty: PostType, user: string)
    requires CleanUser(user)
    ensures ParseSession(ty, Some(AskBody(user))) == NewSession(user)
  {
    LowerIsFixed(user);
  }

  lemma SignupBodyIs(hash: Hasher, user: string, password: string, sess: string, sesv: string)
    requires HexOk(sesv, SALT_LEN)
    ensures SubmitBody(hash, Signup, user, password, SessionJson(Session(Signup, sess, sesv, None)))
         == Some(map["ver" := JsonInt(1), "username" := JsonString(user), "signup_salt" := JsonString(sesv),
                     "passwd" := JsonString(SignupTag(hash, sesv, user, password))])
  {
    var json := SessionJson(Session(Signup, sess, sesv, None));
    assert CookieName(Signup) == "signup_sess";
    assert json["ver"] == JsonInt(1) && json["signup_sess"] == JsonString(sesv);
  }

  lemma LoginBodyIs(hash: Hasher, user: string, password: string, sess: string, sesv: string, salt1: string)
    requires HexOk(sesv, SALT_LEN) && HexOk(salt1, SALT_LEN)
    ensures SubmitBody(hash, Login, user, password, SessionJson(Session(Login, sess, sesv, Some(salt1))))
         == Some(map["ver" := JsonInt(1), "username" := JsonString(user), "login_salt" := JsonString(sesv),
                     "passwd" := JsonString(LoginTag(hash, salt1, sesv, user, password))])
  {
    var json := SessionJson(Session(Login, sess, sesv, Some(salt1)));
    assert CookieName(Login) == "login_sess" && SaltName(Login) == "login_salt";
    assert json["ver"] == JsonInt(1) && json["login_sess"] == JsonString(sesv)
        && json["login_salt"] == JsonString(salt1);
  }

  /** And it reads what the browser submits as the submission it means. */
  lemma SubmissionIsUnderstood(ty: PostType, user: string, salt: string, tag: string)
    requires ty != Admin && CleanUser(user) && HexOk(salt, SALT_LEN) && HexOk(tag, PASSWD_LEN)
    ensures ParseSession(ty, Some(map["ver" := JsonInt(1), "username" := JsonString(user),
                                      (if ty == Signup then "signup_salt" else "login_salt") := JsonString(salt),
                                      "passwd" := JsonString(tag)]))
         == Submit(user, tag, salt)
  {
    LowerIsFixed(user);
    var name := if ty == Signup then "signup_salt" else "login_salt";
    assert SaltName(ty) == name;
    var json: Json :=
        map["ver" := JsonInt(1), "username" := JsonString(user), name := JsonString(salt), "passwd" := JsonString(tag)];
    assert json.Keys == {"ver", "username", name, "passwd"};
    assert |json| <= 4 by { SmallJson(json, name); }
  }

  lemma SmallJson(json: Json, name: string)
    requires json.Keys == {"ver", "username", name, "passwd"}
    ensures |json| <= 4
  {
    assert |json| == |json.Keys|;
    assert json.Keys == {"ver", "username", "passwd"} + {name};
  }

  // ----- The bytes a browser sends -----

  /** A POST to <dir><type> with these further header lines and this body text. */
  function PostText(dir: string, ty: PostType, headers: seq<Header>, body: string): string {
    MessageText(HeaderTexts([OtherHeader("POST " + dir + TypeStr(ty) + " HTTP/1.1")] + headers), body)
  }

  /** A directory that begins and ends with a slash, on one line, without an "HTTP/" in it. */
  predicate DirOk(dir: string) {
    dir != "" && dir[0] == '/' && dir[|dir| - 1] == '/' && Markless(dir) && Free(dir, CRLF)
  }

  lemma RequestLineOk(dir: string, ty: PostType)
    requires DirOk(dir)
    ensures HeaderOk(OtherHeader("POST " + dir + TypeStr(ty) + " HTTP/1.1"))
  {
    var line := "POST " + dir + TypeStr(ty) + " HTTP/1.1";
    FreeCat("POST ", dir, CRLF);
    FreeCat("POST " + dir, TypeStr(ty), CRLF);
    FreeCat("POST " + dir + TypeStr(ty), " HTTP/1.1", CRLF);
    assert line[0] == 'P' && Lowered(line[..7])[0] == 'p';
  }

  /** Classification and cookie lookup undo the browser's rendering. */
  lemma PostIsUnderstood(dir: string, ty: PostType, headers: seq<Header>, body: string)
    requires DirOk(dir) && forall h :: h in headers ==> HeaderOk(h)
    ensures Classify(PostText(dir, ty, headers, body)) == Accepted(ty)
    ensures HeadEnd(PostText(dir, ty, headers, body)).Some?
    ensures CookieLookup(PostText(dir, ty, headers, body), CookieName(ty), 33)
         == match HeaderLookup(headers, CookieName(ty))
            case None => Missing(125009)
            case Some(v) => if |v| >= 33 then Missing(125005) else Found(v)
  {
    hide Classify, HeadEnd, CookieLookup, HeaderOk;
    var line := "POST " + dir + TypeStr(ty) + " HTTP/1.1";
    var hs := [OtherHeader(line)] + headers;
    RequestLineOk(dir, ty);
    CookieNamePlain(ty);
    ExtractionUndoesRendering(hs, body, CookieName(ty), 33);
    assert hs[1..] == headers;
    HeadersAreLines(hs);
    BlankLineEndsHead(HeaderTexts(hs), body);
    RequestLineStarts(dir, ty, HeaderTexts(hs), body);
  }

  lemma CookieNamePlain(ty: PostType)
    ensures PlainName(CookieName(ty))
  {
  }

  lemma RequestLineStarts(dir: string, ty: PostType, lines: seq<string>, body: string)
    requires DirOk(dir) && lines != [] && lines[0] == "POST " + dir + TypeStr(ty) + " HTTP/1.1"
    ensures Classify(MessageText(lines, body)) == Accepted(ty)
  {
    hide Classify, JoinLines, DirOk;
    var more := JoinLines(lines[1..]);
    JoinUnfolds(lines);
    Regroup(dir, TypeStr(ty), "\r\n" + more + "\r\n" + body);
    assert lines[0] + "\r\n" + more + "\r\n" + body == lines[0] + ("\r\n" + more + "\r\n" + body);
    assert dir != "" && dir[0] == '/' && dir[|dir| - 1] == '/' && Markless(dir) by { DirParts(dir); }
    ClientLineClassified(dir, ty, "\r\n" + more + "\r\n" + body);
  }

  lemma DirParts(dir: string)
    requires DirOk(dir)
    ensures dir != "" && dir[0] == '/' && dir[|dir| - 1] == '/' && Markless(dir)
  {
  }

  lemma Regroup(dir: string, name: string, rest: string)
    ensures "POST " + dir + name + " HTTP/1.1" + rest == "POST " + (dir + name + " " + ("HTTP/1.1" + rest))
  {
    assert " HTTP/1.1" == " " + "HTTP/1.1";
  }

  lemma JoinUnfolds(lines: seq<string>)
    requires lines != []
    ensures JoinLines(lines) == lines[0] + "\r\n" + JoinLines(lines[1..])
  {
  }
}
