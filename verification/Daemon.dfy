/** The daemon's own code, one thread: fields that the C code keeps in thread-local
    variables, methods that update them branch by branch. Each method is proved to do
    to the world what its function in Protocol says (src/redis.c, src/redis_get_int.c,
    src/redis_get_hget_string.c, src/redis_set_hset_key_value.c, src/redis_increment.c,
    src/redis_check_ip.c, src/sess_handle_new_request.c,
    src/http_server_main_loop_handler.c, src/http_server_main_loop.c). */
module Daemon {
  import opened Common
  import opened RedisStore
  import opened TextScan
  import opened HttpText
  import opened HttpParser
  import opened Hashing
  import opened Cookies
  import opened PostPath
  import opened CBuffer
  import P = Protocol

  // ----- The connection and the cached index -----

  /** ctx: the live connection, by the database that the server has selected on it;
      cached: what current_dbIdx says. */
  datatype Conn = Conn(ctx: Option<int>, cached: int)

  predicate Agrees(c: Conn) {
    c.ctx.Some? ==> c.ctx.value == c.cached
  }

  /** What redis_connect_thread makes of a connection. Where Dial keeps the connection as it
      is, nothing is sent; everywhere else it ends with a SELECT of db on the server. */
  function Reconnect(c: Conn, tick: Tick, db: int): (Conn, bool) {
    var (link, up) := Dial(Link(c.ctx.Some?, c.cached), tick, db);
    var kept := c.ctx.Some? && c.cached == db;
    (Conn(if !link.up then None else if kept then c.ctx else Some(db), link.cached), up)
  }

  /** A helper connects, or frees the connection without touching the cached index. */
  datatype ConnMove = Connects(tick: Tick, db: int) | Frees

  function Drive(c: Conn, moves: seq<ConnMove>): Conn
    decreases |moves|
  {
    if moves == [] then c
    else match moves[|moves| - 1]
      case Connects(tick, db) => Reconnect(Drive(c, moves[..|moves| - 1]), tick, db).0
      case Frees => Drive(c, moves[..|moves| - 1]).(ctx := None)
  }

  /** Connection-cache agreement. After any sequence of helper calls and failures, a
      connect for db that reports success leaves a connection on which the server has
      selected db, although helpers drop connections without resetting the index. */
  lemma {:induction false} CacheAgrees(moves: seq<ConnMove>, tick: Tick, db: int)
    ensures Agrees(Drive(Conn(None, -1), moves))
    ensures var (c, up) := Reconnect(Drive(Conn(None, -1), moves), tick, db);
            (up ==> c.ctx == Some(db)) && (!up ==> c.ctx == None)
    decreases |moves|
  {
    if moves != [] {
      var front := moves[..|moves| - 1];
      match moves[|moves| - 1]
      case Connects(tick', db') => CacheAgrees(front, tick', db');
      case Frees => CacheAgrees(front, tick, db);
    }
  }

  // ----- The thread -----

  predicate FieldsClean(f: map<string, string>) {
    forall name :: name in f ==> Free(f[name], NUL)
  }

  predicate StoreClean(st: Store) {
    && (forall k :: k in st && st[k].value.Text? ==> Free(st[k].value.text, NUL))
    && (forall k :: k in st && st[k].value.Fields? ==> FieldsClean(st[k].value.fields))
  }

  predicate CmdClean(cmd: Cmd) {
    && (cmd.SetEx? ==> Free(cmd.text, NUL))
    && (cmd.HSet? ==> FieldsClean(cmd.fields))
  }

  lemma EffectClean(st: Store, db: int, cmd: Cmd, now: int)
    requires StoreClean(st) && CmdClean(cmd)
    ensures StoreClean(Effect(st, db, cmd, now))
    ensures var reply := TrueReply(st, db, cmd, now);
            (cmd.Get? || cmd.HGet?) && reply.StrReply? ==> Free(reply.s, NUL)
  {
  }

  class Thread {
    const form: P.Form
    const argon: Argon
    const sha: Sha
    const tape: Tape
    const state: ThreadState

    var store: Store
    var now: int
    var pos: nat
    ghost var log: seq<Event>
    var ctx: Option<int>
    var currentDbIdx: int
    var sent: seq<P.Response>

    constructor (form: P.Form, argon: Argon, sha: Sha, tape: Tape)
      requires DigestSized(argon, sha)
      ensures Valid() && View() == P.FRESH && fresh(state)
      ensures Env() == P.Env(form, Pipeline(argon, sha), tape)
    {
      this.form, this.argon, this.sha, this.tape := form, argon, sha, tape;
      state := new ThreadState();
      store, now, pos, log, ctx, currentDbIdx, sent := map[], 0, 0, [], None, -1, [];
    }

    ghost function Env(): P.Env {
      P.Env(form, Pipeline(argon, sha), tape)
    }

    /** A live connection's selected database is the cached one; stored texts are C strings. */
    ghost predicate Valid()
      reads this
    {
      Agrees(Conn(ctx, currentDbIdx)) && StoreClean(store) && DigestSized(argon, sha)
    }

    ghost function View(): World
      reads this
    {
      World(store, now, pos, log, Link(ctx.Some?, currentDbIdx))
    }

    // ----- src/redis.c -----

    method RedisConnectThread(db: int) returns (up: bool)
      requires Valid()
      modifies `now, `pos, `ctx, `currentDbIdx
      ensures Valid() && (View(), up) == Connect(tape, old(View()), db)
      ensures (Conn(ctx, currentDbIdx), up) == Reconnect(old(Conn(ctx, currentDbIdx)), tape(old(pos)), db)
      ensures up ==> ctx == Some(db)
    {
      var tick := tape(pos);
      now, pos := now + tick.wait, pos + 1;
      if ctx.Some? {
        if currentDbIdx == db { return true; }
        if !tick.selectOk {
          ctx := None;
          currentDbIdx := -1;
          return false;
        }
        ctx := Some(db);
        currentDbIdx := db;
        return true;
      }
      currentDbIdx := -1;
      if !tick.connectOk { return false; }
      ctx := Some(0);
      if !tick.authOk {
        ctx := None;
        return false;
      }
      if !tick.selectOk {
        ctx := None;
        return false;
      }
      ctx := Some(db);
      currentDbIdx := db;
      return true;
    }

    /** One command on the live connection: it runs in whatever database the server has
        selected there. */
    method RedisCommand(cmd: Cmd, outcome: Outcome) returns (reply: Reply)
      requires Valid() && ctx.Some? && CmdClean(cmd)
      modifies `store, `log
      ensures Valid()
      ensures reply == Settle(old(View()), outcome, ctx.value, cmd).1
      ensures (if reply == NoReply then View().(link := Link(false, currentDbIdx)) else View())
           == Settle(old(View()), outcome, ctx.value, cmd).0
      ensures (cmd.Get? || cmd.HGet?) && reply.StrReply? ==> Free(reply.s, NUL)
      ensures cmd.Exists? || cmd.Incr? || cmd.Expire? ==> !reply.StrReply?
      ensures reply != NotConnected
    {
      EffectClean(store, ctx.value, cmd, now);
      var answer := TrueReply(store, ctx.value, cmd, now);
      var intact := Intact(cmd);
      if intact && (outcome.Answered? || outcome.ran) {
        store := Effect(store, ctx.value, cmd, now);
        log := log + [Ran(now, ctx.value, cmd)];
      }
      match outcome
      case Answered => return if intact then answer else ErrorReply;
      case Failed(kind, _) =>
        match kind
        case Null => return NoReply;
        case Error => return ErrorReply;
        case Odd => return OtherReply;
    }

    // ----- src/redis_get_int.c, src/redis_get_hget_string.c -----

    method GetInt(db: int, cmd: Cmd) returns (rt: int, dst: int)
      requires Valid() && CmdClean(cmd)
      modifies `store, `now, `pos, `log, `ctx, `currentDbIdx
      ensures Valid() && P.Called(View(), rt, dst) == P.GetInt(tape, old(View()), db, cmd)
      ensures cmd.Exists? || cmd.Incr? || cmd.Expire? ==> rt != 129036
      ensures ctx == if rt == 129001 || rt == 129008 then None else Some(db)
      ensures rt != 129001 ==> currentDbIdx == db
    {
      hide Effect, TrueReply, StoreClean;
      dst := -1;
      var outcome := tape(pos).outcome;
      var up := RedisConnectThread(db);
      if !up { return 129001, dst; }
      var reply := RedisCommand(cmd, outcome);
      if reply.NoReply? {
        ctx := None;
        return 129008, dst;
      }
      if reply.ErrorReply? { return 129011, dst; }
      if reply.IntReply? { return 0, reply.n; }
      if reply.StrReply? { return 129036, dst; }
      return 129051, dst;
    }

    /** The caller's buffer receives exactly `len` characters and a NUL. */
    method GetHgetString(db: int, len: nat, dstBuf: array<char>, cmd: Cmd) returns (rt: int)
      requires Valid() && (cmd.Get? || cmd.HGet?) && dstBuf.Length == len + 1
      modifies `store, `now, `pos, `log, `ctx, `currentDbIdx, dstBuf
      ensures Valid()
      ensures var got := P.GetString(tape, old(View()), db, len, cmd);
              && View() == got.w && rt == got.rt
              && (rt == 0 ==> |got.s| == len && dstBuf[..len] == got.s && dstBuf[len] == '\0')
              && (rt == 0 ==> Free(got.s, NUL))
      ensures ctx == if rt == 125001 || rt == 125006 then None else Some(db)
    {
      hide Effect, TrueReply, StoreClean;
      var outcome := tape(pos).outcome;
      var up := RedisConnectThread(db);
      if !up { return 125001; }
      var reply := RedisCommand(cmd, outcome);
      if reply.NoReply? {
        ctx := None;
        return 125006;
      }
      if reply.ErrorReply? { return 125011; }
      if !reply.StrReply? { return 125021; }
      var copyLen := |reply.s|;
      if copyLen != len { return 125041; }
      CopyText(reply.s, dstBuf);
      return 0;
    }

    /** strncpy and the closing NUL. */
    static method CopyText(s: string, buf: array<char>)
      requires buf.Length == |s| + 1
      modifies buf
      ensures buf[..|s|] == s && buf[|s|] == '\0'
    {
      var i := 0;
      while i < |s|
        invariant 0 <= i <= |s|
        invariant buf[..i] == s[..i]
      {
        buf[i] := s[i];
        assert buf[..i + 1] == buf[..i] + [s[i]];
        i := i + 1;
      }
      buf[|s|] := '\0';
      assert s[..|s|] == s;
    }

    // ----- src/redis_set_hset_key_value.c, src/redis_increment.c -----

    method SetHset(db: int, ttl: int, cmd: Cmd) returns (rt: int)
      requires Valid() && CmdClean(cmd) && (cmd.SetEx? || cmd.HSet?)
      modifies `store, `now, `pos, `log, `ctx, `currentDbIdx
      ensures Valid() && P.Done(View(), rt) == P.SetHset(tape, old(View()), db, ttl, cmd)
      ensures ctx == if rt == 135001 || rt == 135008 || rt == 135013 then None else Some(db)
    {
      hide Effect, TrueReply, StoreClean;
      var outcome := tape(pos).outcome;
      var up := RedisConnectThread(db);
      if !up { return 135001; }
      var reply := RedisCommand(cmd, outcome);
      if reply.NoReply? {
        ctx := None;
        return 135008;
      }
      if reply.ErrorReply? { return 135011; }
      if !reply.StatusReply? && !reply.IntReply? { return 135026; }
      if cmd.SetEx? { return 0; }
      rt := ExpireOnSameConnection(db, cmd.key, ttl);
    }

    /** The second redisCommand: no connect in between. */
    method ExpireOnSameConnection(db: int, key: Key, ttl: int) returns (rt: int)
      requires Valid() && ctx == Some(db)
      modifies `store, `now, `pos, `log, `ctx
      ensures Valid()
      ensures var (w, reply) := Send(tape, old(View()), db, Expire(key, ttl));
              View() == w && rt == P.ExpireVerdict(reply)
      ensures ctx == if rt == 135013 then None else Some(db)
      ensures rt in {0, 135013, 135015, 135018}
    {
      hide Effect, TrueReply, StoreClean;
      var tick := tape(pos);
      now, pos := now + tick.wait, pos + 1;
      var reply := RedisCommand(Expire(key, ttl), tick.outcome);
      if reply.NoReply? {
        ctx := None;
        return 135013;
      }
      if reply.ErrorReply? { return 135015; }
      if !reply.IntReply? || reply.n != 1 { return 135018; }
      return 0;
    }

    method Increment(db: int, ttl: int, key: Key) returns (rt: int, dst: int, ghost armed: bool)
      requires Valid()
      modifies `store, `now, `pos, `log, `ctx, `currentDbIdx
      ensures Valid() && P.Counted(View(), rt, dst, armed) == P.Increment(tape, old(View()), db, ttl, key)
    {
      hide P.GetInt, Connect, StoreClean;
      dst, armed := 0, false;
      var up := RedisConnectThread(db);
      if !up { return 131001, dst, armed; }
      var n;
      rt, n := GetInt(db, Incr(key));
      if rt != 0 { return; }
      dst := n;
      rt, n := GetInt(db, Expire(key, ttl));
      armed := n == 1;
    }

    // ----- src/redis_check_ip.c -----

    method CheckIp(ip: string, db: int) returns (rt: int)
      requires Valid() && state.postType.Some?
      modifies `store, `now, `pos, `log, `ctx, `currentDbIdx
      ensures Valid() && P.Done(View(), rt) == P.CheckIp(tape, old(View()), db, state.postType.value, ip)
    {
      hide P.GetInt, P.Increment, Connect, StoreClean;
      var ty := state.postType.value;
      var up := RedisConnectThread(db);
      if !up { return 111001; }
      var n;
      ghost var armed;
      rt, n := GetInt(db, Exists(OkKey(ty, ip)));
      if rt != 0 { return; }
      if n != 0 {
        if ty == Signup || (ty == Login && n > 6) || (ty == Admin && n > 2) {
          rt, n, armed := Increment(db, SIGNUP_FAILED_TTL, FailedKey(ty, ip));
          if rt != 0 { return; }
          return 111011;
        }
      }
      rt, n, armed := Increment(db, SIGNUP_FAILED_TTL, FailedKey(ty, ip));
      if rt != 0 { return; }
      var maxAllowFailed := 5;
      if ty == Login { maxAllowFailed := 10; }
      if ty == Admin { maxAllowFailed := 2; }
      if n > maxAllowFailed { return 111019; }
      log := log + [GatePassed(now, ty, ip, n, armed)];
      return 0;
    }

    method SendResponse(r: P.Response)
      modifies `sent
      ensures sent == old(sent) + [r]
    {
      sent := sent + [r];
    }

    // ----- src/sess_handle_new_request.c -----

    method SessHandleNewRequest(ty: PostType, rq: P.Request, user: string) returns (rt: int)
      requires Valid() && state.Settled(Accepted(ty)) && Free(rq.sess, NUL)
      modifies `store, `now, `pos, `log, `ctx, `currentDbIdx, `sent
      ensures Valid()
      ensures var h := P.IssueSession(Env(), old(View()), ty, rq, user);
              View() == h.w && sent == old(sent) + h.sent && (rt == 0 <==> h.rt == 1) && (rt != 0 <==> h.rt == 211051)
    {
      hide P.SetHset, P.GetString, StoreClean;
      rt := SetHset(state.dbIdxIpCountX, SESS_TTL, SetEx(SessKey(ty, user, rq.sesv), rq.sess, SESS_TTL));
      if rt != 0 { return 161001; }
      if state.postType == Some(Login) {
        var loginSalt := new char[SALT_LEN + 1](_ => '\0');
        rt := GetHgetString(SALT_LOGIN_DB, SALT_LEN, loginSalt, HGet(UserKey(Login, user), "salt"));
        if rt != 0 { return 161010; }
        SendResponse(P.Session(ty, rq.sess, rq.sesv, Some(loginSalt[..SALT_LEN])));
        return 0;
      }
      SendResponse(P.Session(ty, rq.sess, rq.sesv, None));
      return 0;
    }

    // ----- src/http_server_main_loop_handler.c -----

    /** strncmp over two whole buffers of the same size. */
    static method SameText(a: array<char>, b: array<char>) returns (same: bool)
      requires a.Length == b.Length > 0 && a[a.Length - 1] == '\0' && Free(a[..a.Length - 1], NUL)
      ensures same <==> a[..] == b[..]
    {
      assert forall j :: 0 <= j < a.Length - 1 ==> a[j] == a[..a.Length - 1][j];
      var i := 0;
      while i < a.Length
        invariant 0 <= i <= a.Length
        invariant a[..i] == b[..i]
      {
        if a[i] != b[i] {
          assert a[..][i] != b[..][i];
          return false;
        }
        if a[i] == '\0' {
          assert a[..i + 1] == a[..] && b[..i + 1] == b[..];
          return true;
        }
        i := i + 1;
      }
      return true;
    }

    static lemma BufferHoldsCookie(saved: string, v: string, a: string, b: string)
      requires |a| == |b| == SALT_LEN + 1 && |saved| == SALT_LEN && Free(saved, NUL)
      requires a[..SALT_LEN] == saved && a[SALT_LEN] == '\0'
      requires |v| <= SALT_LEN && b[..|v|] == v && b[|v|] == '\0'
      ensures a == b <==> v == saved
    {
      assert forall i :: 0 <= i < SALT_LEN ==> a[i] == saved[i];
      if |v| < SALT_LEN { assert a[|v|] != b[|v|]; }
      if v == saved { assert a == saved + ['\0'] == b; }
    }

    /** Lines 59 to 82. */
    method CheckSession(ty: PostType, rq: P.Request, user: string, salt: string) returns (rt: int)
      requires Valid() && state.Settled(Accepted(ty))
      modifies `store, `now, `pos, `log, `ctx, `currentDbIdx, `sent
      ensures Valid()
      ensures var h := P.CheckSession(Env(), old(View()), ty, rq, user, salt);
              View() == h.w && sent == old(sent) + h.sent && rt == h.rt
      ensures rt == 0 ==> sent == old(sent)
    {
      hide P.GetString, StoreClean, CookieLookup, DecText;
      var dbSaved := new char[SALT_LEN + 1](_ => '\0');
      rt := GetHgetString(state.dbIdxIpCountX, SALT_LEN, dbSaved, Get(SessKey(ty, user, salt)));
      if rt != 0 {
        SendResponse(P.Refusal("34:" + DecText(rt)));
        return 211061;
      }
      log := log + [SessRead(now, ty, user, salt, dbSaved[..SALT_LEN])];
      var verifyTmpValue := new char[SALT_LEN + 1](_ => '\0');
      NamePlain(ty);
      rt := CookieExtract(rq.buffer, verifyTmpValue, P.CookieName(ty));
      if rt != 0 {
        CookieRefused(ty, rq);
        SendResponse(P.Refusal("38:" + DecText(rt)));
        return 211071;
      }
      ghost var cookie := CookieLookup(rq.buffer, P.CookieName(ty), SALT_LEN + 1);
      CookieRefused(ty, rq);
      BufferHoldsCookie(dbSaved[..SALT_LEN], cookie.value, dbSaved[..], verifyTmpValue[..]);
      var same := SameText(dbSaved, verifyTmpValue);
      if !same {
        SendResponse(P.Refusal("39"));
        return 211081;
      }
      return 0;
    }

    static lemma NamePlain(ty: PostType)
      ensures PlainName(P.CookieName(ty))
    {
    }

    static lemma CookieRefused(ty: PostType, rq: P.Request)
      ensures var cookie := CookieLookup(rq.buffer, P.CookieName(ty), SALT_LEN + 1);
              cookie == P.CookieOf(ty, rq) && (cookie.Missing? ==> cookie.code != 0)
    {
    }

    /** Lines 100 to 118. */
    method SignUp(rq: P.Request, user: string, passwd: string, salt: string) returns (rt: int)
      requires Valid() && state.Settled(Accepted(Signup)) && Free(passwd, NUL) && Free(salt, NUL)
      modifies `store, `now, `pos, `log, `ctx, `currentDbIdx, `sent
      ensures Valid()
      ensures var h := P.SignupTail(Env(), old(View()), rq, user, passwd, salt);
              View() == h.w && sent == old(sent) + h.sent && rt == h.rt
    {
      hide P.SetHset, StoreClean, DecText;
      rt := SetHset(state.dbIdxIpCountX, SIGNUP_OK_TTL, SetEx(OkKey(Signup, P.FlagIp(form, rq)), "1", SIGNUP_OK_TTL));
      if rt != 0 {
        SendResponse(P.Refusal("34:" + DecText(rt)));
        return 211101;
      }
      rt := SetHset(SALT_LOGIN_DB, NEW_USER_TTL, HSet(UserKey(Login, user), P.NewRecord(passwd, salt)));
      if rt != 0 {
        SendResponse(P.Refusal("44:" + DecText(rt)));
        return 211111;
      }
      SendResponse(P.Welcome);
      return 0;
    }

    /** Lines 128 to 151. */
    method LogIn(rq: P.Request, user: string, passwd: string, sessSalt: string) returns (rt: int)
      requires Valid() && |user| <= USERNAME_MAX_LEN && Free(user, NUL) && Free(sessSalt, NUL)
      modifies `store, `now, `pos, `log, `ctx, `currentDbIdx, `sent
      ensures Valid()
      ensures var h := P.LoginTail(Env(), old(View()), rq, user, passwd, sessSalt);
              View() == h.w && sent == old(sent) + h.sent && rt == h.rt
    {
      hide P.GetString, StoreClean, DecText, LoginCheck;
      var hash := new char[PASSWD_LEN + 1](_ => '\0');
      rt := GetHgetString(SALT_LOGIN_DB, PASSWD_LEN, hash, HGet(UserKey(Login, user), "hash"));
      if rt != 0 {
        SendResponse(P.Refusal("29:211130"));
        return 211130;
      }
      var salt := new char[SALT_LEN + 1](_ => '\0');
      rt := GetHgetString(SALT_LOGIN_DB, SALT_LEN, salt, HGet(UserKey(Login, user), "salt"));
      if rt != 0 {
        SendResponse(P.Refusal("29:211140"));
        return 211140;
      }
      rt := CalcHashForLogin(argon, sha, rq.argonOk, user, sessSalt, hash[..PASSWD_LEN], passwd);
      if rt != 0 {
        SendResponse(P.Refusal("54:" + DecText(rt) + ":211121"));
        return 211121;
      }
      SendResponse(P.Welcome);
      return 0;
    }

    /** Lines 84 to 154. */
    method CheckRecord(ty: PostType, rq: P.Request, user: string, passwd: string, salt: string) returns (rt: int)
      requires Valid() && state.Settled(Accepted(ty))
      requires |user| <= USERNAME_MAX_LEN && Free(user, NUL) && Free(passwd, NUL) && Free(salt, NUL)
      modifies `store, `now, `pos, `log, `ctx, `currentDbIdx, `sent
      ensures Valid()
      ensures var h := P.CheckRecord(Env(), old(View()), ty, rq, user, passwd, salt);
              View() == h.w && sent == old(sent) + h.sent && rt == h.rt
    {
      hide P.GetInt, P.SignupTail, P.LoginTail, StoreClean, DecText;
      var n;
      rt, n := GetInt(SALT_LOGIN_DB, Exists(P.GuardKey(form, ty, user)));
      if rt != 0 {
        SendResponse(P.Refusal("24:" + DecText(rt) + ":-1"));
        return 211091;
      }
      if ty == Signup {
        if n == 1 {
          SendResponse(P.Refusal("29:211100"));
          return 211100;
        }
        rt := SignUp(rq, user, passwd, salt);
      } else {
        if n != 1 {
          SendResponse(P.Refusal("29:211120"));
          return 211120;
        }
        rt := LogIn(rq, user, passwd, salt);
      }
    }

    method MainLoopHandler(ty: PostType, rq: P.Request) returns (rt: int)
      requires Valid() && state.Settled(Accepted(ty)) && Free(rq.sess, NUL)
      modifies `store, `now, `pos, `log, `ctx, `currentDbIdx, `sent
      ensures Valid()
      ensures var h := P.Handle(Env(), old(View()), ty, rq);
              View() == h.w && sent == old(sent) + h.sent && rt == h.rt
    {
      hide P.CheckIp, P.IssueSession, P.CheckSession, P.CheckRecord, StoreClean, DecText, ParseSession, IndexOf;
      rt := CheckIp(rq.ip, state.dbIdxIpCountX);
      if rt != 0 {
        SendResponse(P.Refusal("22:" + DecText(rt)));
        return 211021;
      }
      if HeadEnd(rq.buffer).None? {
        SendResponse(P.Refusal("24"));
        return 211031;
      }
      var req := new SessionRequest();
      rt := req.Parse(ty, rq.json);
      if rt != 0 {
        ErrorIsOne();
        SendResponse(P.Refusal("30:" + DecText(rt)));
        return 211041;
      }
      if req.passwd.None? && req.signupSalt.None? {
        rt := SessHandleNewRequest(ty, rq, req.username.value);
        if rt != 0 { return 211051; }
        return 1;
      }
      rt := CheckSession(ty, rq, req.username.value, req.signupSalt.value);
      if rt != 0 { return; }
      ParsedIsClean(ty, rq);
      rt := CheckRecord(ty, rq, req.username.value, req.passwd.value, req.signupSalt.value);
    }

    /** A parsed submission holds short text without NUL. */
    static lemma ParsedIsClean(ty: PostType, rq: P.Request)
      requires ParseSession(ty, rq.json).Submit?
      ensures var p := ParseSession(ty, rq.json);
              |p.user| <= USERNAME_MAX_LEN && Free(p.user, NUL) && Free(p.passwd, NUL) && Free(p.salt, NUL)
    {
    }

    static lemma ErrorIsOne()
      ensures "30:" + DecText(1) == "30:1"
    {
      assert "30:" + "1" == "30:1";
    }

    // ----- src/http_server_main_loop.c -----

    /** One turn of the loop. After an overread the daemon's course is unknown; the turn
        ends without an answer, as in Protocol.Serve. */
    method ServeOne(rq: P.Request) returns (rt: int)
      requires Valid() && |rq.buffer| <= REQUEST_MAX && Free(rq.sess, NUL)
      modifies `store, `now, `pos, `log, `ctx, `currentDbIdx, `sent, state
      ensures Valid() && P.Handled(View(), rt, sent) == P.Serve(Env(), old(View()), rq)
    {
      hide P.Handle, StoreClean, DecText, Classify;
      sent := [];
      var verdict := state.CheckPostTypePath(rq.buffer);
      match verdict
      case Overread => return -1;
      case Refused(code) =>
        SendResponse(P.Refusal("20:" + DecText(code) + ":[" + Cut(rq.buffer, 25) + "]"));
        return code;
      case Accepted(ty) =>
        rt := MainLoopHandler(ty, rq);
    }

    /** The serving loop does to the world what Run says, request by request. */
    method HttpServe(rqs: seq<P.Request>)
      requires Valid()
      requires forall rq :: rq in rqs ==> |rq.buffer| <= REQUEST_MAX && Free(rq.sess, NUL)
      modifies `store, `now, `pos, `log, `ctx, `currentDbIdx, `sent, state
      ensures Valid() && View() == P.Run(Env(), old(View()), rqs)
    {
      hide P.Serve, StoreClean;
      var i := 0;
      while i < |rqs|
        invariant 0 <= i <= |rqs| && Valid()
        invariant P.Run(Env(), View(), rqs[i..]) == P.Run(Env(), old(View()), rqs)
      {
        assert rqs[i..][1..] == rqs[i + 1..];
        var _ := ServeOne(rqs[i]);
        i := i + 1;
      }
      assert rqs[i..] == [];
    }
  }
}
