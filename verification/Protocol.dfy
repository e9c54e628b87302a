/** The daemon's request handling as functions of the world: each function mirrors one
    C function, branch by branch. Daemon.dfy proves the imperative code equal to them. */
module Protocol {
  import opened Common
  import opened RedisStore
  import opened TextScan
  import opened HttpText
  import opened HttpParser
  import opened Hashing
  import opened Cookies
  import opened PostPath

  // ----- Store helpers -----

  datatype Called = Called(w: World, rt: int, n: int)
  datatype Fetched = Fetched(w: World, rt: int, s: string)
  datatype Done = Done(w: World, rt: int)

  /** redis_get_int (src/redis_get_int.c). */
  function GetInt(tape: Tape, w: World, db: int, cmd: Cmd): Called {
    var (w1, reply) := Issue(tape, w, db, cmd);
    match reply
    case IntReply(n) => Called(w1, 0, n)
    case NotConnected => Called(w1, 129001, -1)
    case NoReply => Called(w1, 129008, -1)
    case ErrorReply => Called(w1, 129011, -1)
    case StrReply(_) => Called(w1, 129036, -1)
    case _ => Called(w1, 129051, -1)
  }

  function StringVerdict(reply: Reply, len: nat): int {
    match reply
    case NotConnected => 125001
    case NoReply => 125006
    case ErrorReply => 125011
    case StrReply(s) => if |s| == len then 0 else 125041
    case _ => 125021
  }

  /** redis_get_hget_string (src/redis_get_hget_string.c). */
  function GetString(tape: Tape, w: World, db: int, len: nat, cmd: Cmd): Fetched {
    var (w1, reply) := Issue(tape, w, db, cmd);
    var rt := StringVerdict(reply, len);
    Fetched(w1, rt, if rt == 0 then reply.s else "")
  }

  function SetVerdict(reply: Reply): int {
    match reply
    case NotConnected => 135001
    case NoReply => 135008
    case ErrorReply => 135011
    case StatusReply => 0
    case IntReply(_) => 0
    case _ => 135026
  }

  function ExpireVerdict(reply: Reply): int {
    match reply
    case NoReply => 135013
    case ErrorReply => 135015
    case IntReply(n) => if n == 1 then 0 else 135018
    case _ => 135018
  }

  /** redis_set_hset_key_value (src/redis_set_hset_key_value.c): SET carries its
      lifetime, HSET is followed by EXPIRE on the same connection. */
  function SetHset(tape: Tape, w: World, db: int, ttl: int, cmd: Cmd): Done
    requires cmd.SetEx? || cmd.HSet?
  {
    var (w1, reply) := Issue(tape, w, db, cmd);
    var rt := SetVerdict(reply);
    if rt != 0 || cmd.SetEx? then Done(w1, rt)
    else
      var (w2, reply2) := Send(tape, w1, db, Expire(cmd.key, ttl));
      Done(w2, ExpireVerdict(reply2))
  }

  datatype Counted = Counted(w: World, rt: int, n: int, armed: bool)

  /** redis_increment (src/redis_increment.c): INCR, then EXPIRE. The C code does not look
      at what EXPIRE answered; `armed` keeps it for the history. */
  function Increment(tape: Tape, w: World, db: int, ttl: int, key: Key): Counted {
    var (w1, up) := Connect(tape, w, db);
    if !up then Counted(w1, 131001, 0, false)
    else
      var incr := GetInt(tape, w1, db, Incr(key));
      if incr.rt != 0 then Counted(incr.w, incr.rt, 0, false)
      else
        var expire := GetInt(tape, incr.w, db, Expire(key, ttl));
        Counted(expire.w, expire.rt, incr.n, expire.n == 1)
  }

  // ----- The per-IP gate -----

  function MaxAllowed(ty: PostType): int {
    match ty
    case Signup => 5
    case Login => 10
    case Admin => 2
  }

  /** The number of live flags that blocks a type at once. */
  function FlagBlocks(ty: PostType, n: int): bool {
    n != 0 && (ty == Signup || (ty == Login && n > 6) || (ty == Admin && n > 2))
  }

  /** redis_check_ip (src/redis_check_ip.c). */
  function CheckIp(tape: Tape, w: World, db: int, ty: PostType, ip: string): Done {
    var (w1, up) := Connect(tape, w, db);
    if !up then Done(w1, 111001)
    else
      var flag := GetInt(tape, w1, db, Exists(OkKey(ty, ip)));
      if flag.rt != 0 then Done(flag.w, flag.rt)
      else
        var count := Increment(tape, flag.w, db, SIGNUP_FAILED_TTL, FailedKey(ty, ip));
        if count.rt != 0 then Done(count.w, count.rt)
        else if FlagBlocks(ty, flag.n) then Done(count.w, 111011)
        else if count.n > MaxAllowed(ty) then Done(count.w, 111019)
        else Done(Passed(count.w, ty, ip, count.n, count.armed), 0)
  }

  function Passed(w: World, ty: PostType, ip: string, n: int, armed: bool): World {
    w.(log := w.log + [GatePassed(w.now, ty, ip, n, armed)])
  }

  // ----- Requests and responses -----

  /** What one request brings: the bytes that one read yielded, the JSON its body holds (None when the body
      does not parse), the client address, the text that line 102 prints for the flag
      key, and what the random generator and the memory-hard hash will do. */
  datatype Request = Request(
    buffer: string,
    ip: string,
    flagText: string,
    json: Option<Json>,
    sess: string,
    sesv: string,
    argonOk: bool)

  /** The responses: 422 with a body; 200 with an empty body; 200 with a session. */
  datatype Response =
    | Refusal(body: string)
    | Welcome
    | Session(ty: PostType, sess: string, sesv: string, salt: Option<string>)

  /** The two places where the code as written differs from its own comments:
      which key the duplicate check asks for (line 87) and which text names the
      signup flag (line 102). */
  datatype Form = Form(guardOnRecord: bool, flagOnIp: bool)

  const LITERAL := Form(false, false)

  datatype Env = Env(form: Form, hash: Hasher, tape: Tape)

  datatype Handled = Handled(w: World, rt: int, sent: seq<Response>)

  function GuardKey(form: Form, ty: PostType, user: string): Key {
    if form.guardOnRecord then UserKey(Login, user) else UserKey(ty, user)
  }

  /** The address part of the flag key. The client library drops spaces at the end of the
      printed text, so they are not part of the key. */
  function FlagIp(form: Form, rq: Request): string {
    if form.flagOnIp then rq.ip else TrimRight(rq.flagText)
  }

  /** The flag's text reaches the store as one word. */
  predicate FlagPlain(form: Form, rq: Request) {
    IpText(FlagIp(form, rq))
  }

  /** It is cut into several words: the store refuses the command. A percent sign would make
      the client library format with arguments that are not there, and is in neither group. */
  predicate FlagCut(form: Form, rq: Request) {
    |FlagIp(form, rq)| <= IP_MAX_LEN && Free(FlagIp(form, rq), {'%', '\0'}) && ' ' in FlagIp(form, rq)
  }

  function CookieName(ty: PostType): string {
    TypeStr(ty) + "_sess"
  }

  function CookieOf(ty: PostType, rq: Request): CookieResult {
    CookieLookup(rq.buffer, CookieName(ty), 33)
  }

  function NewRecord(passwd: string, salt: string): map<string, string> {
    map["hash" := passwd, "salt" := salt, "level" := "0", "status" := "active"]
  }

  // ----- sess_handle_new_request -----

  function IssueSession(env: Env, w: World, ty: PostType, rq: Request, user: string): Handled {
    var put := SetHset(env.tape, w, IpCountDb(ty), SESS_TTL, SetEx(SessKey(ty, user, rq.sesv), rq.sess, SESS_TTL));
    if put.rt != 0 then Handled(put.w, 211051, [])
    else if ty == Login then
      var salt := GetString(env.tape, put.w, SALT_LOGIN_DB, SALT_LEN, HGet(UserKey(Login, user), "salt"));
      if salt.rt != 0 then Handled(salt.w, 211051, [])
      else Handled(salt.w, 1, [Session(ty, rq.sess, rq.sesv, Some(salt.s))])
    else Handled(put.w, 1, [Session(ty, rq.sess, rq.sesv, None)])
  }

  // ----- http_server_main_loop_handler -----

  function SignupTail(env: Env, w: World, rq: Request, user: string, passwd: string, salt: string): Handled {
    var flag := SetHset(env.tape, w, IpCountDb(Signup), SIGNUP_OK_TTL,
                        SetEx(OkKey(Signup, FlagIp(env.form, rq)), "1", SIGNUP_OK_TTL));
    if flag.rt != 0 then Handled(flag.w, 211101, [Refusal("34:" + DecText(flag.rt))])
    else
      var put := SetHset(env.tape, flag.w, SALT_LOGIN_DB, NEW_USER_TTL,
                         HSet(UserKey(Login, user), NewRecord(passwd, salt)));
      if put.rt != 0 then Handled(put.w, 211111, [Refusal("44:" + DecText(put.rt))])
      else Handled(put.w, 0, [Welcome])
  }

  function LoginTail(env: Env, w: World, rq: Request, user: string, passwd: string, sessSalt: string): Handled {
    var hash := GetString(env.tape, w, SALT_LOGIN_DB, PASSWD_LEN, HGet(UserKey(Login, user), "hash"));
    if hash.rt != 0 then Handled(hash.w, 211130, [Refusal("29:211130")])
    else
      var salt := GetString(env.tape, hash.w, SALT_LOGIN_DB, SALT_LEN, HGet(UserKey(Login, user), "salt"));
      if salt.rt != 0 then Handled(salt.w, 211140, [Refusal("29:211140")])
      else
        var rt := LoginCheck(env.hash, rq.argonOk, user, sessSalt, hash.s, passwd);
        if rt != 0 then Handled(salt.w, 211121, [Refusal("54:" + DecText(rt) + ":211121")])
        else Handled(salt.w, 0, [Welcome])
  }

  /** The world after a successful session lookup. */
  function Noted(w: World, ty: PostType, user: string, salt: string, value: string): World {
    w.(log := w.log + [SessRead(w.now, ty, user, salt, value)])
  }

  /** Lines 59 to 82: the session and the cookie. A zero rt lets the request through. */
  function CheckSession(env: Env, w: World, ty: PostType, rq: Request, user: string, salt: string): Handled {
    var saved := GetString(env.tape, w, IpCountDb(ty), SALT_LEN, Get(SessKey(ty, user, salt)));
    if saved.rt != 0 then Handled(saved.w, 211061, [Refusal("34:" + DecText(saved.rt))])
    else
      var w1 := Noted(saved.w, ty, user, salt, saved.s);
      match CookieOf(ty, rq)
      case Missing(code) => Handled(w1, 211071, [Refusal("38:" + DecText(code))])
      case Found(v) =>
        if v != saved.s then Handled(w1, 211081, [Refusal("39")])
        else Handled(w1, 0, [])
  }

  /** Lines 84 to 154: the record check and what follows it. */
  function CheckRecord(env: Env, w: World, ty: PostType, rq: Request, user: string, passwd: string,
                       salt: string): Handled
  {
    var found := GetInt(env.tape, w, SALT_LOGIN_DB, Exists(GuardKey(env.form, ty, user)));
    if found.rt != 0 then Handled(found.w, 211091, [Refusal("24:" + DecText(found.rt) + ":-1")])
    else if ty == Signup then
      if found.n == 1 then Handled(found.w, 211100, [Refusal("29:211100")])
      else SignupTail(env, found.w, rq, user, passwd, salt)
    else if found.n != 1 then Handled(found.w, 211120, [Refusal("29:211120")])
    else LoginTail(env, found.w, rq, user, passwd, salt)
  }

  function HandleSubmit(env: Env, w: World, ty: PostType, rq: Request, user: string, passwd: string,
                        salt: string): Handled
  {
    var session := CheckSession(env, w, ty, rq, user, salt);
    if session.rt != 0 then session
    else CheckRecord(env, session.w, ty, rq, user, passwd, salt)
  }

  function AfterGate(env: Env, w: World, ty: PostType, rq: Request): Handled {
    if HeadEnd(rq.buffer).None? then Handled(w, 211031, [Refusal("24")])
    else match ParseSession(ty, rq.json)
      case Rejected(_) => Handled(w, 211041, [Refusal("30:1")])
      case NewSession(user) => IssueSession(env, w, ty, rq, user)
      case Submit(user, passwd, salt) => HandleSubmit(env, w, ty, rq, user, passwd, salt)
  }

  function Handle(env: Env, w: World, ty: PostType, rq: Request): Handled {
    var gate := CheckIp(env.tape, w, IpCountDb(ty), ty, rq.ip);
    if gate.rt != 0 then Handled(gate.w, 211021, [Refusal("22:" + DecText(gate.rt))])
    else AfterGate(env, gate.w, ty, rq)
  }

  // ----- http_serve -----

  /** One turn of the serving loop, from the received bytes on. After an overread the
      daemon's course is not determined by the request; the model drops it. */
  function Serve(env: Env, w: World, rq: Request): Handled {
    match Classify(rq.buffer)
    case Accepted(ty) => Handle(env, w, ty, rq)
    case Refused(code) => Handled(w, code, [Refusal("20:" + DecText(code) + ":[" + Cut(rq.buffer, 25) + "]")])
    case Overread => Handled(w, -1, [])
  }

  /** One worker serving requests one after the other. */
  function Run(env: Env, w: World, rqs: seq<Request>): World
    decreases |rqs|
  {
    if rqs == [] then w else Run(env, Serve(env, w, rqs[0]).w, rqs[1..])
  }

  /** The daemon's state when nothing has been stored yet. */
  const FRESH := World(map[], 0, 0, [], Link(false, -1))
}
