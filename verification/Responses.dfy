/** The bytes of a response: offset arithmetic, header lines, Content-Length
    (src/send_response.c, src/send_response_sess.c). */
module Responses {
  import opened Common
  import opened TextScan
  import opened HttpText
  import opened Hashing
  import opened RedisStore
  import opened HttpParser
  import opened PostPath
  import opened Protocol
  import opened Interleaving
  import opened CBuffer
  import opened Wire

  const RESPONSE_BUFFER := 4096
  const BODY_BUFFER := 3072

  // ----- The declarative form -----

  /** Status line, cache line, one Set-Cookie line per cookie. */
  function FrontLines(status: nat, reason: string, cookies: seq<string>): seq<string> {
    ["HTTP/1.1 " + DecText(status) + " " + reason, "Cache-Control: no-cache, no-store"] + CookieLines(cookies)
  }

  function CookieLines(cookies: seq<string>): seq<string> {
    if cookies == [] then [] else CookieLines(cookies[..|cookies| - 1]) + ["Set-Cookie: " + cookies[|cookies| - 1]]
  }

  /** All header lines; the length is that of the body before truncation. */
  function HeadLines(status: nat, reason: string, cookies: seq<string>, body: Option<string>): seq<string> {
    FrontLines(status, reason, cookies) + ["Content-Length: " + DecText(if body.None? then 0 else |body.value|)]
  }

  /** The body that leaves the 3072 byte body buffer. */
  function SentBody(body: Option<string>): string {
    if body.None? then "" else Cut(body.value, BODY_BUFFER - 1)
  }

  function ResponseBytes(status: nat, reason: string, cookies: seq<string>, body: Option<string>): string {
    MessageText(HeadLines(status, reason, cookies, body), SentBody(body))
  }

  lemma {:induction false} JoinLinesSnoc(lines: seq<string>, line: string)
    ensures JoinLines(lines + [line]) == JoinLines(lines) + (line + "\r\n")
    decreases |lines|
  {
    if lines == [] {
      assert [line][1..] == [] && line + "\r\n" + "" == line + "\r\n";
      assert lines + [line] == [line] && "" + (line + "\r\n") == line + "\r\n";
    } else {
      assert (lines + [line])[1..] == lines[1..] + [line];
      JoinLinesSnoc(lines[1..], line);
      assert lines[0] + "\r\n" + (JoinLines(lines[1..]) + (line + "\r\n"))
          == lines[0] + "\r\n" + JoinLines(lines[1..]) + (line + "\r\n");
    }
  }

  // ----- send_response -----

  /** offset += snprintf(response + offset, 4096 - offset, ...): as long as everything
      fits, the buffer holds the concatenation and offset is its length. */
  method Append(response: array<char>, offset: nat, more: string) returns (end: nat)
    requires response.Length == RESPONSE_BUFFER && offset + |more| < RESPONSE_BUFFER
    modifies response
    ensures end == offset + |more|
    ensures response[..end] == old(response[..offset]) + more
  {
    var n := Snprintf(response, offset, RESPONSE_BUFFER - offset, more);
    assert response[..offset + n] == response[..offset] + response[offset..offset + n];
    return offset + n;
  }

  /** The response buffer after send_response, of which `offset` bytes are written out.
      The caller owes a response that fits; ResponseFits shows that the daemon's do. */
  method SendResponse(status: nat, reason: string, cookieArr: seq<string>, body: Option<string>)
    returns (response: array<char>, offset: nat)
    requires |ResponseBytes(status, reason, cookieArr, body)| < RESPONSE_BUFFER
    requires body.Some? ==> Free(body.value, NUL)
    ensures response.Length == 4096 && offset < 4096
    ensures offset == |ResponseBytes(status, reason, cookieArr, body)|
    ensures response[..offset] == ResponseBytes(status, reason, cookieArr, body)
  {
    hide MessageText, DecText;
    response := new char[RESPONSE_BUFFER];
    Stages(status, reason, cookieArr, body);
    var start := "HTTP/1.1 " + DecText(status) + " " + reason + "\r\n" + "Cache-Control: no-cache, no-store\r\n";
    StartText(status, reason);
    StageFits(status, reason, cookieArr, body, 0);
    offset := Append(response, 0, start);
    var i := 0;
    while i < |cookieArr|
      invariant 0 <= i <= |cookieArr|
      invariant offset == |Stage(status, reason, cookieArr[..i])| && offset < RESPONSE_BUFFER
      invariant response[..offset] == Stage(status, reason, cookieArr[..i])
    {
      StageFits(status, reason, cookieArr, body, i + 1);
      StageStep(status, reason, cookieArr, i);
      offset := Append(response, offset, "Set-Cookie: " + cookieArr[i] + "\r\n");
      i := i + 1;
    }
    assert cookieArr[..|cookieArr|] == cookieArr;
    if body.Some? {
      var bodyBuf := new char[BODY_BUFFER];
      var contentLength := Snprintf(bodyBuf, 0, BODY_BUFFER, body.value);
      CutFree(body.value, BODY_BUFFER - 1, NUL);
      CTextIs(bodyBuf[..], Cut(body.value, BODY_BUFFER - 1));
      offset := Append(response, offset,
                       "Content-Length: " + DecText(contentLength) + "\r\n" + "\r\n" + CText(bodyBuf[..]));
      assert response[..offset] == Stage(status, reason, cookieArr) + LengthAndBody(body);
    } else {
      offset := Append(response, offset, "Content-Length: 0\r\n\r\n");
      assert response[..offset] == Stage(status, reason, cookieArr) + LengthAndBody(body);
    }
  }

  /** What the buffer holds once the cookies so far are in. */
  function Stage(status: nat, reason: string, cookies: seq<string>): string {
    JoinLines(FrontLines(status, reason, cookies))
  }

  function LengthAndBody(body: Option<string>): string {
    "Content-Length: " + DecText(if body.None? then 0 else |body.value|) + "\r\n" + "\r\n" + SentBody(body)
  }

  lemma StartText(status: nat, reason: string)
    ensures Stage(status, reason, [])
         == "HTTP/1.1 " + DecText(status) + " " + reason + "\r\n" + "Cache-Control: no-cache, no-store\r\n"
  {
    var first, second := "HTTP/1.1 " + DecText(status) + " " + reason, "Cache-Control: no-cache, no-store";
    assert FrontLines(status, reason, []) == [first, second];
    assert [first, second][1..] == [second] && [second][1..] == [];
    assert JoinLines([second]) == "Cache-Control: no-cache, no-store\r\n";
    assert JoinLines([first, second]) == first + "\r\n" + JoinLines([second]);
  }

  lemma StageStep(status: nat, reason: string, cookies: seq<string>, i: nat)
    requires i < |cookies|
    ensures Stage(status, reason, cookies[..i + 1])
            == Stage(status, reason, cookies[..i]) + ("Set-Cookie: " + cookies[i] + "\r\n")
  {
    hide DecText, JoinLines;
    assert cookies[..i + 1][..i] == cookies[..i];
    var front := FrontLines(status, reason, cookies[..i]);
    assert FrontLines(status, reason, cookies[..i + 1]) == front + ["Set-Cookie: " + cookies[i]];
    JoinLinesSnoc(front, "Set-Cookie: " + cookies[i]);
  }

  /** The whole response is the last stage followed by length, blank line and body. */
  lemma Stages(status: nat, reason: string, cookies: seq<string>, body: Option<string>)
    ensures ResponseBytes(status, reason, cookies, body) == Stage(status, reason, cookies) + LengthAndBody(body)
    ensures body.None? ==> LengthAndBody(body) == "Content-Length: 0\r\n\r\n"
  {
    hide JoinLines;
    var last := "Content-Length: " + DecText(if body.None? then 0 else |body.value|);
    JoinLinesSnoc(FrontLines(status, reason, cookies), last);
    var front, sent := Stage(status, reason, cookies), SentBody(body);
    assert front + (last + "\r\n") + "\r\n" + sent == front + (last + "\r\n" + "\r\n" + sent);
    if body.None? {
      assert DecText(0) == "0" && "Content-Length: " + "0" + "\r\n" + "\r\n" + "" == "Content-Length: 0\r\n\r\n";
    }
  }

  lemma {:induction false} StageFits(status: nat, reason: string, cookies: seq<string>, body: Option<string>, i: nat)
    requires i <= |cookies|
    requires |ResponseBytes(status, reason, cookies, body)| < RESPONSE_BUFFER
    ensures |Stage(status, reason, cookies[..i])| < RESPONSE_BUFFER
    decreases |cookies| - i
  {
    hide ResponseBytes, Stage, DecText;
    if i == |cookies| {
      assert cookies[..i] == cookies;
      Stages(status, reason, cookies, body);
    } else {
      StageFits(status, reason, cookies, body, i + 1);
      StageStep(status, reason, cookies, i);
    }
  }

  // ----- Framing -----

  predicate HeadOk(reason: string, cookies: seq<string>) {
    Free(reason, CRLF) && forall c :: c in cookies ==> Free(c, CRLF)
  }

  lemma DecTextFree(n: int)
    ensures Free(DecText(n), CRLF)
  {
  }

  lemma {:induction false} CookieLinesOk(cookies: seq<string>)
    requires forall c :: c in cookies ==> Free(c, CRLF)
    ensures forall line :: line in CookieLines(cookies) ==> LineOk(line)
    decreases |cookies|
  {
    if cookies != [] {
      var n := |cookies| - 1;
      assert cookies[n] in cookies;
      assert forall c :: c in cookies[..n] ==> c in cookies;
      CookieLinesOk(cookies[..n]);
      FreeCat("Set-Cookie: ", cookies[n], CRLF);
    }
  }

  lemma HeadLinesOk(status: nat, reason: string, cookies: seq<string>, body: Option<string>)
    requires HeadOk(reason, cookies)
    ensures HeadLines(status, reason, cookies, body) != []
    ensures forall line :: line in HeadLines(status, reason, cookies, body) ==> LineOk(line)
  {
    hide DecText, LineOk, CookieLines;
    var length := if body.None? then 0 else |body.value|;
    CookieLinesOk(cookies);
    FirstLineOk(status, reason);
    LastLineOk(length);
  }

  lemma FirstLineOk(status: nat, reason: string)
    requires Free(reason, CRLF)
    ensures LineOk("HTTP/1.1 " + DecText(status) + " " + reason) && LineOk("Cache-Control: no-cache, no-store")
  {
    hide DecText;
    DecTextFree(status);
    FreeCat("HTTP/1.1 ", DecText(status), CRLF);
    FreeCat("HTTP/1.1 " + DecText(status), " ", CRLF);
    FreeCat("HTTP/1.1 " + DecText(status) + " ", reason, CRLF);
  }

  lemma LastLineOk(length: nat)
    ensures LineOk("Content-Length: " + DecText(length))
  {
    hide DecText;
    DecTextFree(length);
    FreeCat("Content-Length: ", DecText(length), CRLF);
  }

  /** The header line that announces a body of n bytes. */
  predicate Announces(line: string, n: int) {
    |line| > 16 && line[..16] == "Content-Length: " && Numeral(line[16..], n)
  }

  lemma LengthAnnounced(n: nat)
    ensures Announces("Content-Length: " + DecText(n), n)
  {
    hide DecText;
    DecTextReads(n);
    var line := "Content-Length: " + DecText(n);
    assert line[..16] == "Content-Length: " && line[16..] == DecText(n);
  }

  /** Framing (section 6.2 of RFC 9112). The first blank line of a response ends the head,
      whose last line announces the length; what follows has that length exactly when the
      body fits the body buffer. */
  lemma FramingExact(status: nat, reason: string, cookies: seq<string>, body: Option<string>)
    requires HeadOk(reason, cookies)
    ensures var bytes := ResponseBytes(status, reason, cookies, body);
            var lines := HeadLines(status, reason, cookies, body);
            var announced := if body.None? then 0 else |body.value|;
            && HeadEnd(bytes) == Some(|HeadText(lines)|)
            && Tokens(bytes[..|HeadText(lines)|], CRLF) == lines
            && lines != [] && Announces(lines[|lines| - 1], announced)
            && (|bytes[|HeadText(lines)| + 4..]| == announced <==> announced < 3072)
            && (announced < 3072 && body.Some? ==> bytes[|HeadText(lines)| + 4..] == body.value)
  {
    hide MessageText, HeadEnd, HeadText, LineOk, FrontLines, DecText, CRLF;
    HeadLinesOk(status, reason, cookies, body);
    var lines := HeadLines(status, reason, cookies, body);
    BlankLineEndsHead(lines, SentBody(body));
    TokensOfHead(lines);
    LengthAnnounced(if body.None? then 0 else |body.value|);
  }

  // ----- The daemon's responses -----

  function SessCookie(ty: PostType, sess: string): string {
    CookieName(ty) + "=" + sess + "; HttpOnly; Max-Age=300"
  }

  function SessBody(ty: PostType, sesv: string, salt: Option<string>): string {
    "{\"ver\": 1, \"" + CookieName(ty) + "\": \"" + sesv + "\""
    + (if salt.None? then "" else ", \"" + TypeStr(ty) + "_salt\": \"" + salt.value + "\"") + "}"
  }

  function StatusOf(r: Response): nat {
    if r.Refusal? then 422 else 200
  }

  function ReasonOf(r: Response): string {
    if r.Refusal? then "Unprocessable Entity" else "OK"
  }

  function CookiesOf(md5Cookie: string, r: Response): seq<string> {
    if r.Session? then [md5Cookie, SessCookie(r.ty, r.sess)] else []
  }

  function BodyOf(r: Response): Option<string> {
    match r
    case Refusal(body) => Some(body)
    case Welcome => None
    case Session(ty, _, sesv, salt) => Some(SessBody(ty, sesv, salt))
  }

  /** The bytes of a response; md5Cookie is the daemon's constant first cookie. */
  function Rendered(md5Cookie: string, r: Response): string {
    ResponseBytes(StatusOf(r), ReasonOf(r), CookiesOf(md5Cookie, r), BodyOf(r))
  }

  predicate Md5CookieOk(c: string) {
    |c| < 33 && Free(c, CRLF)
  }

  /** What the handler's responses look like: short refusals, 32-character tokens. */
  predicate ResponseOk(r: Response) {
    match r
    case Refusal(body) => |body| <= 48
    case Welcome => true
    case Session(_, sess, sesv, salt) =>
      HexToken(sess, SALT_LEN) && |sesv| == SALT_LEN && (salt.Some? ==> |salt.value| == SALT_LEN)
  }

  lemma SessCookieFits(ty: PostType, sess: string)
    requires HexToken(sess, SALT_LEN)
    ensures Free(SessCookie(ty, sess), CRLF + NUL) && |SessCookie(ty, sess)| <= 67
  {
    var seps := CRLF + NUL;
    assert Free(sess, seps);
    FreeCat(TypeStr(ty), "_sess", seps);
    FreeCat(CookieName(ty), "=", seps);
    FreeCat(CookieName(ty) + "=", sess, seps);
    FreeCat(CookieName(ty) + "=" + sess, "; HttpOnly; Max-Age=300", seps);
  }

  lemma SessBodyFits(ty: PostType, sesv: string, salt: Option<string>)
    requires |sesv| == SALT_LEN && (salt.Some? ==> |salt.value| == SALT_LEN)
    ensures |SessBody(ty, sesv, salt)| <= 120
  {
  }

  lemma DecTextShort(n: nat)
    requires n < 10_000_000
    ensures |DecText(n)| <= 7
  {
    DecTextWord(n);
  }

  lemma JoinSizes(status: nat, reason: string, cookies: seq<string>, body: Option<string>)
    requires status < 1000 && |reason| <= 20 && |cookies| <= 2 && forall c :: c in cookies ==> |c| <= 67
    requires body.Some? ==> |body.value| <= 120
    ensures |ResponseBytes(status, reason, cookies, body)| <= 444
  {
    hide ResponseBytes, LengthAndBody, Stage, DecText;
    Stages(status, reason, cookies, body);
    StartText(status, reason);
    DecTextShort(status);
    assert |Stage(status, reason, [])| <= 80;
    assert cookies[..|cookies|] == cookies && cookies[..0] == [];
    if |cookies| >= 1 {
      StageStep(status, reason, cookies, 0);
      assert cookies[0] in cookies;
    }
    if |cookies| == 2 {
      StageStep(status, reason, cookies, 1);
      assert cookies[1] in cookies;
    }
    LengthAndBodySize(body);
  }

  lemma LengthAndBodySize(body: Option<string>)
    requires body.Some? ==> |body.value| <= 120
    ensures |LengthAndBody(body)| <= 147
  {
    hide DecText;
    DecTextShort(if body.None? then 0 else |body.value|);
  }

  /** Every response of the daemon fits its buffers with room to spare. */
  lemma ResponseFits(md5Cookie: string, r: Response)
    requires Md5CookieOk(md5Cookie) && ResponseOk(r)
    ensures |Rendered(md5Cookie, r)| < 4096
    ensures BodyOf(r).Some? ==> |BodyOf(r).value| < 3072
    ensures HeadOk(ReasonOf(r), CookiesOf(md5Cookie, r))
  {
    hide ResponseBytes, SessCookie, SessBody, HexToken;
    if r.Session? {
      SessCookieFits(r.ty, r.sess);
      SessBodyFits(r.ty, r.sesv, r.salt);
    }
    JoinSizes(StatusOf(r), ReasonOf(r), CookiesOf(md5Cookie, r), BodyOf(r));
  }

  /** send_response_sess2 and send_response_sess3: the cookie goes through the 101 byte
      buffer, the rest is send_response. */
  method SendResponseSess(md5Cookie: string, buf1: array<char>, ty: PostType, sess: string, sesv: string,
                          salt: Option<string>)
    returns (response: array<char>, offset: nat)
    requires buf1.Length == 101 && Md5CookieOk(md5Cookie)
    requires ResponseOk(Session(ty, sess, sesv, salt)) && Free(SessBody(ty, sesv, salt), NUL)
    modifies buf1
    ensures offset == |Rendered(md5Cookie, Session(ty, sess, sesv, salt))| < 4096 == response.Length
    ensures response[..offset] == Rendered(md5Cookie, Session(ty, sess, sesv, salt))
  {
    hide ResponseBytes, SessBody, HexToken, SessCookie;
    var cookie := SessCookie(ty, sess);
    SessCookieFits(ty, sess);
    var _ := Snprintf(buf1, 0, 100, cookie);
    CTextIs(buf1[..], cookie);
    ResponseFits(md5Cookie, Session(ty, sess, sesv, salt));
    response, offset := SendResponse(200, "OK", [md5Cookie, CText(buf1[..])], Some(SessBody(ty, sesv, salt)));
  }

  // ----- Over every run -----

  predicate Code(n: int) {
    -10_000_000 < n < 10_000_000
  }

  lemma CodeText(n: int)
    requires Code(n)
    ensures |DecText(n)| <= 8
  {
    if n < 0 { DecTextShort(-n); } else { DecTextShort(n); }
  }

  predicate PcAnswers(pc: Pc) {
    pc.Closed? ==> forall r :: r in pc.sent ==> ResponseOk(r)
  }

  predicate TokensSized(rq: Request) {
    HexToken(rq.sess, SALT_LEN) && |rq.sesv| == SALT_LEN
  }

  lemma HelperCodes(env: Env, w: World, d: int, len: nat, ttl: int, cmd: Cmd)
    ensures Code(GetInt(env.tape, w, d, cmd).rt) && Code(GetString(env.tape, w, d, len, cmd).rt)
    ensures cmd.SetEx? || cmd.HSet? ==> Code(SetHset(env.tape, w, d, ttl, cmd).rt)
    ensures GetString(env.tape, w, d, len, cmd).rt == 0 ==> |GetString(env.tape, w, d, len, cmd).s| == len
  {
    hide Effect, TrueReply, Settle, Truthful;
  }

  lemma RefusalFits(head: string, n: int, tail: string)
    requires Code(n) && |head| <= 3 && |tail| <= 7
    ensures ResponseOk(Refusal(head + DecText(n) + tail)) && ResponseOk(Refusal(head + DecText(n)))
  {
    hide DecText;
    CodeText(n);
  }

  lemma GateClosedAnswers(rt: int)
    requires Code(rt)
    ensures PcAnswers(GateClosed(rt))
  {
    hide DecText;
    RefusalFits("22:", rt, "");
  }

  lemma BehindGateAnswers(ty: PostType, rq: Request)
    ensures PcAnswers(BehindGate(ty, rq))
  {
    hide ParseSession, HeadEnd;
  }

  lemma GateStepAnswers(env: Env, w: World, ty: PostType, rq: Request, pc: Pc, db: int)
    requires PcOk(pc) && (pc.AtGate? || pc.AtFlag? || pc.AtReconnect? || pc.AtIncr? || pc.AtExpire?)
    ensures PcAnswers(Step(env, w, ty, rq, pc, db).1)
  {
    hide GetInt, Connect, GateClosed, BehindGate, Passed;
    BehindGateAnswers(ty, rq);
    match pc
    case AtGate => GateClosedAnswers(111001);
    case AtFlag(d) =>
      HelperCodes(env, w, d, 0, 0, Exists(OkKey(ty, rq.ip)));
      GateClosedAnswers(GetInt(env.tape, w, d, Exists(OkKey(ty, rq.ip))).rt);
    case AtReconnect(_, _) => GateClosedAnswers(131001);
    case AtIncr(d, _) =>
      HelperCodes(env, w, d, 0, 0, Incr(FailedKey(ty, rq.ip)));
      GateClosedAnswers(GetInt(env.tape, w, d, Incr(FailedKey(ty, rq.ip))).rt);
    case AtExpire(d, _, _) =>
      var cmd := Expire(FailedKey(ty, rq.ip), SIGNUP_FAILED_TTL);
      HelperCodes(env, w, d, 0, 0, cmd);
      GateClosedAnswers(GetInt(env.tape, w, d, cmd).rt);
      GateClosedAnswers(111011);
      GateClosedAnswers(111019);
  }

  lemma SessionStepAnswers(env: Env, w: World, ty: PostType, rq: Request, pc: Pc, db: int)
    requires PcOk(pc) && TokensSized(rq) && (pc.AtNewSession? || pc.AtNewSalt?)
    ensures PcAnswers(Step(env, w, ty, rq, pc, db).1)
  {
    hide GetString, SetHset, HexToken;
    if pc.AtNewSalt? { HelperCodes(env, w, SALT_LOGIN_DB, SALT_LEN, 0, HGet(UserKey(Login, pc.user), "salt")); }
  }

  lemma SubmitStepAnswers(env: Env, w: World, ty: PostType, rq: Request, pc: Pc, db: int)
    requires PcOk(pc) && (pc.AtLookup? || pc.AtGuard? || pc.AtSetFlag?)
    ensures PcAnswers(Step(env, w, ty, rq, pc, db).1)
  {
    hide GetString, GetInt, SetHset, DecText, CookieOf, Noted, GuardKey, FlagIp;
    match pc
    case AtLookup(p) =>
      var cmd := Get(SessKey(ty, p.user, p.salt));
      HelperCodes(env, w, db, SALT_LEN, 0, cmd);
      RefusalFits("34:", GetString(env.tape, w, db, SALT_LEN, cmd).rt, "");
      CookieCodes(ty, rq);
    case AtGuard(p) =>
      var cmd := Exists(GuardKey(env.form, ty, p.user));
      HelperCodes(env, w, SALT_LOGIN_DB, 0, 0, cmd);
      RefusalFits("24:", GetInt(env.tape, w, SALT_LOGIN_DB, cmd).rt, ":-1");
    case AtSetFlag(p) =>
      var cmd := SetEx(OkKey(Signup, FlagIp(env.form, rq)), "1", SIGNUP_OK_TTL);
      HelperCodes(env, w, db, 0, SIGNUP_OK_TTL, cmd);
      RefusalFits("34:", SetHset(env.tape, w, db, SIGNUP_OK_TTL, cmd).rt, "");
  }

  lemma CookieCodes(ty: PostType, rq: Request)
    ensures CookieOf(ty, rq).Missing? ==> ResponseOk(Refusal("38:" + DecText(CookieOf(ty, rq).code)))
  {
    hide DecText;
    if CookieOf(ty, rq).Missing? { RefusalFits("38:", CookieOf(ty, rq).code, ""); }
  }

  lemma RecordStepAnswers(env: Env, w: World, ty: PostType, rq: Request, pc: Pc, db: int)
    requires PcOk(pc) && (pc.AtHSet? || pc.AtHExpire? || pc.AtHash? || pc.AtSalt?)
    ensures PcAnswers(Step(env, w, ty, rq, pc, db).1)
  {
    hide GetString, Issue, Send, DecText, NewRecord;
    match pc
    case AtHSet(p) =>
      var cmd := HSet(UserKey(Login, p.user), NewRecord(p.passwd, p.salt));
      RefusalFits("44:", SetVerdict(Issue(env.tape, w, SALT_LOGIN_DB, cmd).1), "");
    case AtHExpire(p) =>
      var cmd := Expire(UserKey(Login, p.user), NEW_USER_TTL);
      RefusalFits("44:", ExpireVerdict(Send(env.tape, w, SALT_LOGIN_DB, cmd).1), "");
    case AtHash(_) =>
    case AtSalt(p, hash) =>
      RefusalFits("54:", LoginCheck(env.hash, rq.argonOk, p.user, p.salt, hash, p.passwd), ":211121");
  }

  lemma StepAnswers(env: Env, w: World, ty: PostType, rq: Request, pc: Pc, db: int)
    requires PcOk(pc) && Active(pc) && TokensSized(rq)
    ensures PcAnswers(Step(env, w, ty, rq, pc, db).1)
  {
    hide Step, PcAnswers, TokensSized;
    if pc.AtNewSession? || pc.AtNewSalt? { SessionStepAnswers(env, w, ty, rq, pc, db); }
    else if pc.AtLookup? || pc.AtGuard? || pc.AtSetFlag? { SubmitStepAnswers(env, w, ty, rq, pc, db); }
    else if pc.AtHSet? || pc.AtHExpire? || pc.AtHash? || pc.AtSalt? { RecordStepAnswers(env, w, ty, rq, pc, db); }
    else { GateStepAnswers(env, w, ty, rq, pc, db); }
  }

  ghost predicate SysAnswers(s: Sys) {
    forall i :: 0 <= i < |s.workers| ==>
      PcAnswers(s.workers[i].pc) && (Active(s.workers[i].pc) ==> TokensSized(s.workers[i].rq))
  }

  lemma MoveAnswers(env: Env, s: Sys, m: Move)
    requires SysOk(s) && SysAnswers(s) && (m.Begin? ==> TokensSized(m.rq))
    ensures SysAnswers(Do(env, s, m))
  {
    hide Step, ResponseOk, TokensSized;
    var s' := Do(env, s, m);
    if m.Go? && s' != s {
      var me := s.workers[m.i];
      StepAnswers(env, s.w.(link := me.link), me.ty, me.rq, me.pc, m.db);
    }
  }

  lemma {:induction false} RunAnswers(env: Env, s: Sys, moves: seq<Move>)
    requires SysOk(s) && SysAnswers(s)
    requires forall m :: m in moves && m.Begin? ==> TokensSized(m.rq)
    ensures SysAnswers(RunAll(env, s, moves))
    decreases |moves|
  {
    hide Do, SysAnswers, TokensSized;
    if moves != [] {
      assert moves[0] in moves;
      assert forall m :: m in moves[1..] ==> m in moves;
      MoveAnswers(env, s, moves[0]);
      RunAnswers(env, Do(env, s, moves[0]), moves[1..]);
    }
  }

  /** Response framing over every run: whatever a worker answers, in any interleaving and
      under any failures, fits the buffer, and splitting it at the first blank line yields
      a body of exactly the announced length. */
  lemma EveryResponseFramed(env: Env, md5Cookie: string, n: nat, moves: seq<Move>, i: nat, r: Response)
    requires Md5CookieOk(md5Cookie) && forall m :: m in moves && m.Begin? ==> TokensSized(m.rq)
    requires i < n && RunAll(env, Start(n), moves).workers[i].pc.Closed?
    requires r in RunAll(env, Start(n), moves).workers[i].pc.sent
    ensures Framed(md5Cookie, r)
  {
    hide RunAll, ResponseOk, TokensSized, Framed;
    RunAnswers(env, Start(n), moves);
    OkIsFramed(md5Cookie, r);
  }

  /** The header lines are those of the response: its status, no caching, for a session its
      two cookies, and the length. As many bytes as announced follow the first blank line;
      for a refusal they are its text. */
  ghost predicate Framed(md5Cookie: string, r: Response) {
    var bytes := Rendered(md5Cookie, r);
    && |bytes| < 4096 && HeadEnd(bytes).Some?
    && var body := bytes[HeadEnd(bytes).value + 4..];
       && body == (if BodyOf(r).Some? then BodyOf(r).value else "")
       && (r.Refusal? ==> body == r.body) && (r.Welcome? ==> body == "")
       && HeadReads(Tokens(bytes[..HeadEnd(bytes).value], CRLF), md5Cookie, r, |body|)
  }

  predicate HeadReads(lines: seq<string>, md5Cookie: string, r: Response, length: int) {
    && |lines| == (if r.Session? then 5 else 3)
    && lines[0] == (if r.Refusal? then "HTTP/1.1 422 Unprocessable Entity" else "HTTP/1.1 200 OK")
    && lines[1] == "Cache-Control: no-cache, no-store"
    && Announces(lines[|lines| - 1], length)
    && (r.Session? ==>
          var name := match r.ty case Signup => "signup" case Login => "login" case Admin => "admin";
          && lines[2] == "Set-Cookie: " + md5Cookie
          && lines[3] == "Set-Cookie: " + name + "_sess=" + r.sess + "; HttpOnly; Max-Age=300")
  }

  lemma HeadIsRead(md5Cookie: string, r: Response)
    ensures HeadReads(HeadLines(StatusOf(r), ReasonOf(r), CookiesOf(md5Cookie, r), BodyOf(r)), md5Cookie, r,
                      if BodyOf(r).None? then 0 else |BodyOf(r).value|)
  {
    hide Announces, BodyOf, DecText, CookieLines, SessCookie;
    LengthAnnounced(if BodyOf(r).None? then 0 else |BodyOf(r).value|);
    StatusLines();
    CookiePair(md5Cookie, if r.Session? then SessCookie(r.ty, r.sess) else "");
    assert CookieLines([]) == [] by { NoCookies(); }
    if r.Session? { SessCookieText(r.ty, r.sess); }
  }

  lemma StatusLines()
    ensures "HTTP/1.1 " + DecText(422) + " " + "Unprocessable Entity" == "HTTP/1.1 422 Unprocessable Entity"
    ensures "HTTP/1.1 " + DecText(200) + " " + "OK" == "HTTP/1.1 200 OK"
  {
    hide DecText;
    StatusCodes();
    assert "HTTP/1.1 " + "422" + " " + "Unprocessable Entity" == "HTTP/1.1 422 Unprocessable Entity";
    assert "HTTP/1.1 " + "200" + " " + "OK" == "HTTP/1.1 200 OK";
  }

  lemma StatusCodes()
    ensures DecText(422) == "422" && DecText(200) == "200"
  {
  }

  lemma NoCookies()
    ensures CookieLines([]) == []
  {
  }

  lemma CookiePair(first: string, second: string)
    ensures CookieLines([first, second]) == ["Set-Cookie: " + first, "Set-Cookie: " + second]
  {
    assert [first, second][..1] == [first] && [first][..0] == [];
    assert CookieLines([first]) == ["Set-Cookie: " + first];
  }

  lemma SessCookieText(ty: PostType, sess: string)
    ensures var name := match ty case Signup => "signup" case Login => "login" case Admin => "admin";
            "Set-Cookie: " + SessCookie(ty, sess) == "Set-Cookie: " + name + "_sess=" + sess + "; HttpOnly; Max-Age=300"
  {
    assert "_sess" + "=" == "_sess=";
  }

  lemma OkIsFramed(md5Cookie: string, r: Response)
    requires Md5CookieOk(md5Cookie) && ResponseOk(r)
    ensures Framed(md5Cookie, r)
  {
    hide ResponseBytes, HeadLines, HeadReads, HeadEnd, HeadText, DecText, CRLF, Tokens;
    HeadIsRead(md5Cookie, r);
    ResponseFits(md5Cookie, r);
    FramingExact(StatusOf(r), ReasonOf(r), CookiesOf(md5Cookie, r), BodyOf(r));
    HeadLinesOk(StatusOf(r), ReasonOf(r), CookiesOf(md5Cookie, r), BodyOf(r));
  }

  /** The refusal of a request line is framed as well. */
  lemma PathRefusalFramed(env: Env, md5Cookie: string, w: World, rq: Request, r: Response)
    requires Md5CookieOk(md5Cookie) && !Classify(rq.buffer).Accepted? && r in Serve(env, w, rq).sent
    ensures Framed(md5Cookie, r)
  {
    hide Framed, DecText;
    var code := Classify(rq.buffer).code;
    CodeText(code);
    assert |"20:" + DecText(code) + ":[" + Cut(rq.buffer, 25) + "]"| <= 48;
    OkIsFramed(md5Cookie, r);
  }
}
